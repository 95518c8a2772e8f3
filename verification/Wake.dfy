/**
 * LSFS wake bindings: each artifact commit of a bound context becomes exactly one
 * mailbox message, in commit order, and the binding's cursor moves with it.
 */
module WakeBindings {
  import opened Wrappers
  import opened Text
  import opened Mailboxes
  import opened SupervisorState
  import opened Operations
  import CS = ContextStore

  type BindingKey = (AppId, string)

  const MAX_BINDINGS := 64
  const SCAN_BATCH := 64

  function LsfsKey(binding: string, cursor: int): string { Key("lsfs:", binding, cursor) }

  function BindingsOf(m: Main, id: AppId): set<BindingKey> { set k | k in m.bindings && k.0 == id }

  /** `AddLSFSBinding`. */
  function AddBinding(e: Env, st: State, ctx: CS.Store, principal: string, id: AppId, binding: string,
                      ref: CS.ContextId, after: int, now: int): Option<State>
  {
    var m := st.main;
    if id !in m.apps || m.apps[id].state == Tombstoned || binding == "" || |binding| > 128 || after < 0 then None
    else
      var source := if ref == "" then m.apps[id].context else ref;
      if (id, binding) in m.bindings || |BindingsOf(m, id)| >= MAX_BINDINGS then None
      else if CS.Commits(ctx, m.apps[id].owner, source, after, 1).Err? then None
      else
        var main := m.(bindings := m.bindings[(id, binding) := Binding(source, after, after, true)]);
        Some(Note(e, st.(main := main), Allow(principal, id, "event_source.create", binding).(reason := "lsfs artifact commits"), now))
  }

  /** `SetLSFSBindingEnabled`. */
  function EnableBinding(e: Env, st: State, principal: string, id: AppId, binding: string, enabled: bool, now: int): Option<State> {
    var m := st.main;
    if id !in m.apps || m.apps[id].state == Tombstoned || (id, binding) !in m.bindings then None
    else if m.bindings[(id, binding)].enabled == enabled then None
    else
      var main := m.(bindings := m.bindings[(id, binding) := m.bindings[(id, binding)].(enabled := enabled)]);
      Some(Note(e, st.(main := main), Allow(principal, id, if enabled then "event_source.bind" else "event_source.disable", binding), now))
  }

  datatype ScanError = MailFault(mail: MailError) | ContextFault(context: CS.Error)

  datatype Move = Moved(state: State) | Blocked | Broken(error: ScanError)

  function WithBinding(st: State, k: BindingKey, b: Binding): State {
    st.(main := st.main.(bindings := st.main.bindings[k := b]))
  }

  /** One commit: a message for an artifact, and the cursor past it either way. */
  ghost function OneCommit(e: Env, st: State, k: BindingKey, c: CS.Commit, now: int): Move {
    var m := st.main;
    if k !in m.bindings then Blocked
    else if c.kind != CS.ArtifactKind then Moved(WithBinding(st, k, m.bindings[k].(cursor := c.cursor)))
    else
      var b := m.bindings[k].(cursor := c.cursor);
      var key, raw := LsfsKey(k.1, c.cursor), e.lsfsWake(k.1, c);
      match Enqueue(e, st, "supervisor", k.0, key, raw, now)
      case Refused(error) => if error == Full then Blocked else Broken(MailFault(error))
      case _ => Moved(Delivered(e, st, k.0, key, raw, m.timers, m.bindings[k := b], m.pending, now))
  }

  /** The commit loop: it stops where the mailbox is full. */
  ghost function Scan(e: Env, st: State, k: BindingKey, cs: seq<CS.Commit>, now: int): Result<State, ScanError>
    decreases |cs|
  {
    if cs == [] then Ok(st)
    else
      match OneCommit(e, st, k, cs[0], now)
      case Blocked => Ok(st)
      case Broken(error) => Err(error)
      case Moved(after) => Scan(e, after, k, cs[1..], now)
  }

  /** One binding of the scan in `deliverLSFS`. */
  ghost function OneBinding(e: Env, st: State, ctx: CS.Store, k: BindingKey, now: int): Result<State, ScanError> {
    var m := st.main;
    if k !in m.bindings || !m.bindings[k].enabled then Ok(st)
    else if k.0 !in m.apps || m.apps[k.0].state == Tombstoned then Ok(WithBinding(st, k, m.bindings[k].(enabled := false)))
    else
      match CS.Commits(ctx, m.apps[k.0].owner, m.bindings[k].ref, m.bindings[k].cursor, SCAN_BATCH)
      case Err(error) => Err(ContextFault(error))
      case Ok(cs) => Scan(e, st, k, cs, now)
  }

  /** `deliverLSFS` over its sorted keys. */
  ghost function AllBindings(e: Env, st: State, ctx: CS.Store, keys: seq<BindingKey>, now: int): Result<State, ScanError> {
    if keys == [] then Ok(st)
    else
      var before :- AllBindings(e, st, ctx, keys[..|keys| - 1], now);
      OneBinding(e, before, ctx, keys[|keys| - 1], now)
  }

  // ---- Delivered cursors against committed artifacts ----

  ghost predicate FromBinding(key: string, binding: string) { exists n: nat :: key == LsfsKey(binding, n) }

  ghost function CursorOf(key: string, binding: string): nat
    requires FromBinding(key, binding)
  {
    var n: nat :| key == LsfsKey(binding, n); n
  }

  /** The cursors a binding has delivered, in mailbox order. */
  ghost function Delivers(ms: seq<Msg>, binding: string): seq<nat> {
    if ms == [] then []
    else
      var key := ms[|ms| - 1].key;
      Delivers(ms[..|ms| - 1], binding) + if FromBinding(key, binding) then [CursorOf(key, binding)] else []
  }

  predicate ArtifactIn(c: CS.Commit, ref: CS.ContextId, start: nat, cursor: nat) {
    c.context == ref && c.kind == CS.ArtifactKind && start < c.cursor <= cursor
  }

  /** The artifact commits of a context past `start` and up to `cursor`. */
  function Artifacts(commits: seq<CS.Commit>, ref: CS.ContextId, start: nat, cursor: nat): seq<nat> {
    if commits == [] then []
    else
      var c := commits[|commits| - 1];
      Artifacts(commits[..|commits| - 1], ref, start, cursor) + if ArtifactIn(c, ref, start, cursor) then [c.cursor] else []
  }

  /** What a binding has delivered is what was committed between its start and its cursor. */
  ghost predicate BindingOk(commits: seq<CS.Commit>, mail: Mail, k: BindingKey, b: Binding) {
    && b.start <= b.cursor && (b.cursor == b.start || b.cursor <= |commits|)
    && Delivers(BoxOf(mail, k.0), k.1) == Artifacts(commits, b.ref, b.start, b.cursor)
  }

  ghost predicate Unbound(mail: Mail, k: BindingKey) { Delivers(BoxOf(mail, k.0), k.1) == [] }

  ghost predicate WakeOk(commits: seq<CS.Commit>, m: Main) {
    && (forall k {:trigger BindingOk(commits, m.mail, k, m.bindings[k])} | k in m.bindings :: BindingOk(commits, m.mail, k, m.bindings[k]))
    && forall k {:trigger Unbound(m.mail, k)} | k !in m.bindings :: Unbound(m.mail, k)
  }

  lemma CursorOfKey(binding: string, n: nat)
    ensures FromBinding(LsfsKey(binding, n), binding) && CursorOf(LsfsKey(binding, n), binding) == n
  {
    var m := CursorOf(LsfsKey(binding, n), binding);
    KeyInjective("lsfs:", binding, n, binding, m);
  }

  lemma OtherBinding(binding: string, n: nat, other: string)
    requires binding != other
    ensures !FromBinding(LsfsKey(binding, n), other)
  {
    if FromBinding(LsfsKey(binding, n), other) {
      var m: nat :| LsfsKey(binding, n) == LsfsKey(other, m);
      KeyInjective("lsfs:", binding, n, other, m);
    }
  }

  lemma NotReserved(key: string, binding: string)
    requires !HasPrefix(key, "lsfs:")
    ensures !FromBinding(key, binding)
  {
    forall n: nat
      ensures HasPrefix(LsfsKey(binding, n), "lsfs:")
    {
      KeyHasTag("lsfs:", binding, n);
    }
  }

  /** Only keys matter to what was delivered. */
  lemma {:induction false} DeliversByKeys(a: seq<Msg>, b: seq<Msg>, binding: string)
    requires |a| <= |b| && (forall i | 0 <= i < |a| :: a[i].key == b[i].key)
    requires forall i | |a| <= i < |b| :: !FromBinding(b[i].key, binding)
    ensures Delivers(b, binding) == Delivers(a, binding)
    decreases |b|
  {
    if |b| > |a| {
      DeliversByKeys(a, b[..|b| - 1], binding);
    } else if b != [] {
      DeliversByKeys(a[..|a| - 1], b[..|b| - 1], binding);
    }
  }

  lemma {:induction false} ArtifactsStay(commits: seq<CS.Commit>, ref: CS.ContextId, start: nat, cursor: nat, more: nat)
    requires CS.Numbered(commits) && CS.Select(commits, ref, cursor) == [] && start <= cursor <= more
    ensures Artifacts(commits, ref, start, more) == Artifacts(commits, ref, start, cursor)
  {
    if commits != [] {
      ArtifactsStay(commits[..|commits| - 1], ref, start, cursor, more);
    }
  }

  /** Moving the cursor to the next commit adds that commit if it is an artifact, and nothing else. */
  lemma {:induction false} ArtifactsNext(commits: seq<CS.Commit>, ref: CS.ContextId, start: nat, cursor: nat)
    requires CS.Numbered(commits) && CS.Select(commits, ref, cursor) != [] && start <= cursor
    ensures var c := CS.Select(commits, ref, cursor)[0];
            && cursor < c.cursor <= |commits| && c.context == ref
            && Artifacts(commits, ref, start, c.cursor) ==
                 Artifacts(commits, ref, start, cursor) + if c.kind == CS.ArtifactKind then [c.cursor] else []
  {
    var front, last := commits[..|commits| - 1], commits[|commits| - 1];
    var some := CS.Select(front, ref, cursor);
    if some != [] {
      ArtifactsNext(front, ref, start, cursor);
      assert CS.Select(commits, ref, cursor)[0] == some[0];
    } else {
      assert CS.Select(commits, ref, cursor) == [last];
      ArtifactsStay(front, ref, start, cursor, last.cursor);
    }
  }

  lemma {:induction false} ArtifactsGrow(short: seq<CS.Commit>, long: seq<CS.Commit>, ref: CS.ContextId, start: nat, cursor: nat)
    requires CS.Numbered(long) && short <= long && (cursor == start || cursor <= |short|)
    ensures Artifacts(long, ref, start, cursor) == Artifacts(short, ref, start, cursor)
    decreases |long|
  {
    if |short| < |long| {
      assert short <= long[..|long| - 1];
      ArtifactsGrow(short, long[..|long| - 1], ref, start, cursor);
    } else {
      assert short == long;
    }
  }

  lemma {:induction false} ArtifactsBounded(commits: seq<CS.Commit>, ref: CS.ContextId, start: nat, cursor: nat)
    ensures forall i | 0 <= i < |Artifacts(commits, ref, start, cursor)| :: start < Artifacts(commits, ref, start, cursor)[i] <= cursor
    ensures start == cursor ==> Artifacts(commits, ref, start, cursor) == []
  {
    if commits != [] {
      ArtifactsBounded(commits[..|commits| - 1], ref, start, cursor);
    }
  }

  lemma {:induction false} DeliversHas(ms: seq<Msg>, binding: string, i: nat, n: nat)
    requires i < |ms| && ms[i].key == LsfsKey(binding, n)
    ensures exists j :: 0 <= j < |Delivers(ms, binding)| && Delivers(ms, binding)[j] == n
  {
    var front := Delivers(ms[..|ms| - 1], binding);
    if i < |ms| - 1 {
      DeliversHas(ms[..|ms| - 1], binding, i, n);
      var j :| 0 <= j < |front| && front[j] == n;
      assert Delivers(ms, binding)[j] == n;
    } else {
      CursorOfKey(binding, n);
      assert Delivers(ms, binding)[|front|] == n;
    }
  }

  lemma DeliversSnoc(ms: seq<Msg>, m: Msg, binding: string)
    ensures Delivers(ms + [m], binding) ==
              Delivers(ms, binding) + if FromBinding(m.key, binding) then [CursorOf(m.key, binding)] else []
  {
    assert (ms + [m])[..|ms|] == ms;
  }

  /** A commit past the cursor has not been delivered yet. */
  lemma NotYetDelivered(commits: seq<CS.Commit>, mail: Mail, k: BindingKey, b: Binding, n: nat)
    requires BindingOk(commits, mail, k, b) && b.cursor < n
    ensures FindKey(BoxOf(mail, k.0), LsfsKey(k.1, n)) == |BoxOf(mail, k.0)|
  {
    var box := BoxOf(mail, k.0);
    var i := FindKey(box, LsfsKey(k.1, n));
    ArtifactsBounded(commits, b.ref, b.start, b.cursor);
    if i < |box| {
      DeliversHas(box, k.1, i, n);
    }
  }

  // ---- Frames ----

  /** A mailbox that only gained messages from other sources. */
  predicate Benign(a: seq<Msg>, b: seq<Msg>) {
    && |a| <= |b| && (forall i | 0 <= i < |a| :: a[i].key == b[i].key)
    && forall i | |a| <= i < |b| :: !HasPrefix(b[i].key, "lsfs:")
  }

  ghost predicate AllBenign(a: Mail, b: Mail) {
    forall id {:trigger Benign(BoxOf(a, id), BoxOf(b, id))} :: Benign(BoxOf(a, id), BoxOf(b, id))
  }

  predicate SameCursors(a: map<BindingKey, Binding>, b: map<BindingKey, Binding>) {
    a.Keys == b.Keys && forall k | k in a && k in b :: b[k] == a[k].(enabled := b[k].enabled)
  }

  lemma BenignDelivers(a: Mail, b: Mail, k: BindingKey)
    requires AllBenign(a, b)
    ensures Delivers(BoxOf(b, k.0), k.1) == Delivers(BoxOf(a, k.0), k.1)
  {
    var x, y := BoxOf(a, k.0), BoxOf(b, k.0);
    assert Benign(x, y);
    forall i | |x| <= i < |y|
      ensures !FromBinding(y[i].key, k.1)
    {
      NotReserved(y[i].key, k.1);
    }
    DeliversByKeys(x, y, k.1);
  }

  /** Anything but a scan leaves what was delivered alone, and the log of commits may grow. */
  lemma WakeFrame(short: seq<CS.Commit>, long: seq<CS.Commit>, a: Main, b: Main)
    requires WakeOk(short, a) && CS.Numbered(long) && short <= long
    requires SameCursors(a.bindings, b.bindings) && AllBenign(a.mail, b.mail)
    ensures WakeOk(long, b)
  {
    hide AllBenign, Delivers;
    forall k | k in b.bindings
      ensures BindingOk(long, b.mail, k, b.bindings[k])
    {
      assert BindingOk(short, a.mail, k, a.bindings[k]);
      BenignDelivers(a.mail, b.mail, k);
      ArtifactsGrow(short, long, a.bindings[k].ref, a.bindings[k].start, a.bindings[k].cursor);
    }
    forall k | k !in b.bindings
      ensures Unbound(b.mail, k)
    {
      assert Unbound(a.mail, k);
      BenignDelivers(a.mail, b.mail, k);
    }
  }

  lemma WakeBind(commits: seq<CS.Commit>, m: Main, k: BindingKey, b: Binding)
    requires WakeOk(commits, m) && k !in m.bindings && b.start == b.cursor
    ensures WakeOk(commits, m.(bindings := m.bindings[k := b]))
  {
    hide Delivers;
    var after := m.(bindings := m.bindings[k := b]);
    assert Unbound(m.mail, k);
    ArtifactsBounded(commits, b.ref, b.start, b.cursor);
    assert Artifacts(commits, b.ref, b.start, b.cursor) == [];
    forall x | x in after.bindings
      ensures BindingOk(commits, after.mail, x, after.bindings[x])
    {
      assert x != k ==> BindingOk(commits, m.mail, x, m.bindings[x]);
    }
    forall x | x !in after.bindings
      ensures Unbound(after.mail, x)
    {
      assert Unbound(m.mail, x);
    }
  }

  // ---- A scan ----

  lemma PushedElsewhere(mail: Mail, id: AppId, m: Msg, k: BindingKey)
    requires k.0 == id ==> !FromBinding(m.key, k.1)
    ensures Delivers(BoxOf(mail[id := BoxOf(mail, id) + [m]], k.0), k.1) == Delivers(BoxOf(mail, k.0), k.1)
  {
    DeliversSnoc(BoxOf(mail, id), m, k.1);
  }

  /** Delivering the next artifact and moving past it, in one state. */
  lemma WakeArtifact(commits: seq<CS.Commit>, m: Main, k: BindingKey, msg: Msg)
    requires WakeOk(commits, m) && CS.Numbered(commits) && k in m.bindings
    requires CS.Select(commits, m.bindings[k].ref, m.bindings[k].cursor) != []
    requires var c := CS.Select(commits, m.bindings[k].ref, m.bindings[k].cursor)[0];
             c.kind == CS.ArtifactKind && msg.key == LsfsKey(k.1, c.cursor)
    ensures var c := CS.Select(commits, m.bindings[k].ref, m.bindings[k].cursor)[0];
            WakeOk(commits, m.(mail := m.mail[k.0 := BoxOf(m.mail, k.0) + [msg]],
                               bindings := m.bindings[k := m.bindings[k].(cursor := c.cursor)]))
  {
    hide Delivers;
    var b := m.bindings[k];
    var c := CS.Select(commits, b.ref, b.cursor)[0];
    assert BindingOk(commits, m.mail, k, b);
    ArtifactsNext(commits, b.ref, b.start, b.cursor);
    var after := m.(mail := m.mail[k.0 := BoxOf(m.mail, k.0) + [msg]], bindings := m.bindings[k := b.(cursor := c.cursor)]);
    DeliversSnoc(BoxOf(m.mail, k.0), msg, k.1);
    CursorOfKey(k.1, c.cursor);
    forall x | x in after.bindings
      ensures BindingOk(commits, after.mail, x, after.bindings[x])
    {
      if x != k {
        assert BindingOk(commits, m.mail, x, m.bindings[x]);
        Elsewhere(m.mail, k, c.cursor, msg, x);
      }
    }
    forall x | x !in after.bindings
      ensures Unbound(after.mail, x)
    {
      assert Unbound(m.mail, x);
      Elsewhere(m.mail, k, c.cursor, msg, x);
    }
  }

  lemma Elsewhere(mail: Mail, k: BindingKey, n: nat, msg: Msg, x: BindingKey)
    requires msg.key == LsfsKey(k.1, n) && x != k
    ensures Delivers(BoxOf(mail[k.0 := BoxOf(mail, k.0) + [msg]], x.0), x.1) == Delivers(BoxOf(mail, x.0), x.1)
  {
    if x.0 == k.0 {
      OtherBinding(k.1, n, x.1);
    }
    PushedElsewhere(mail, k.0, msg, x);
  }

  /** Moving past a commit that is not an artifact. */
  lemma WakeSkip(commits: seq<CS.Commit>, m: Main, k: BindingKey)
    requires WakeOk(commits, m) && CS.Numbered(commits) && k in m.bindings
    requires CS.Select(commits, m.bindings[k].ref, m.bindings[k].cursor) != []
    requires CS.Select(commits, m.bindings[k].ref, m.bindings[k].cursor)[0].kind != CS.ArtifactKind
    ensures var c := CS.Select(commits, m.bindings[k].ref, m.bindings[k].cursor)[0];
            WakeOk(commits, m.(bindings := m.bindings[k := m.bindings[k].(cursor := c.cursor)]))
  {
    hide Delivers;
    var b := m.bindings[k];
    var c := CS.Select(commits, b.ref, b.cursor)[0];
    assert BindingOk(commits, m.mail, k, b);
    ArtifactsNext(commits, b.ref, b.start, b.cursor);
    var after := m.(bindings := m.bindings[k := b.(cursor := c.cursor)]);
    forall x | x in after.bindings
      ensures BindingOk(commits, after.mail, x, after.bindings[x])
    {
      assert x != k ==> BindingOk(commits, m.mail, x, m.bindings[x]);
    }
    forall x | x !in after.bindings
      ensures Unbound(after.mail, x)
    {
      assert Unbound(m.mail, x);
    }
  }

  /** The parts of the state a scan leaves alone. */
  predicate SameButWake(a: Main, b: Main) { b == a.(mail := b.mail, bindings := b.bindings) }

  /** What a scan step promises. */
  ghost predicate Scanned(e: Env, commits: seq<CS.Commit>, a: State, b: State) {
    && Good(e, b) && Forward(a, b) && b.asks == a.asks && SameButWake(a.main, b.main) && WakeOk(commits, b.main)
    && NoneReturned(a.main.mail, b.main.mail)
  }

  lemma ScannedTransitive(e: Env, commits: seq<CS.Commit>, a: State, b: State, c: State)
    requires Scanned(e, commits, a, b) && Scanned(e, commits, b, c)
    ensures Scanned(e, commits, a, c)
  {
    hide Good, Forward, WakeOk, NoneReturned;
    ForwardTransitive(a, b, c);
    ReturnedTransitive(a.main.mail, b.main.mail, c.main.mail);
  }

  lemma ScannedRefl(e: Env, commits: seq<CS.Commit>, a: State)
    requires Good(e, a) && WakeOk(commits, a.main)
    ensures Scanned(e, commits, a, a)
  {
    hide Good, WakeOk;
    OnwardRefl(a.main);
  }

  lemma WithBindingKeeps(e: Env, st: State, k: BindingKey, b: Binding)
    requires Good(e, st) && k in st.main.bindings && st.main.bindings[k].cursor <= b.cursor
    requires b == st.main.bindings[k].(cursor := b.cursor, enabled := b.enabled)
    ensures Good(e, WithBinding(st, k, b)) && Forward(st, WithBinding(st, k, b))
  {
    var m := st.main;
    assert BindingsOnward(m, m.(bindings := m.bindings[k := b]));
    hide Good, Forward, BindingsOnward;
    SideKeeps(e, st, m.timers, m.bindings[k := b], m.pending);
  }

  lemma SkipScanned(e: Env, commits: seq<CS.Commit>, st: State, k: BindingKey, c: CS.Commit)
    requires Good(e, st) && WakeOk(commits, st.main) && CS.Numbered(commits) && k in st.main.bindings
    requires CS.Select(commits, st.main.bindings[k].ref, st.main.bindings[k].cursor) != []
    requires c == CS.Select(commits, st.main.bindings[k].ref, st.main.bindings[k].cursor)[0] && c.kind != CS.ArtifactKind
    ensures Scanned(e, commits, st, WithBinding(st, k, st.main.bindings[k].(cursor := c.cursor)))
  {
    NextCommit(commits, st.main.bindings[k]);
    hide Good, Forward, WakeOk;
    WakeSkip(commits, st.main, k);
    WithBindingKeeps(e, st, k, st.main.bindings[k].(cursor := c.cursor));
  }

  lemma NextCommit(commits: seq<CS.Commit>, b: Binding)
    requires CS.Numbered(commits) && CS.Select(commits, b.ref, b.cursor) != []
    ensures b.cursor < CS.Select(commits, b.ref, b.cursor)[0].cursor
  {
    CS.SelectBounds(commits, b.ref, b.cursor);
  }

  /** The enqueue of the next artifact adds a new message. */
  lemma ArtifactAdded(e: Env, commits: seq<CS.Commit>, st: State, k: BindingKey, c: CS.Commit, now: int)
    requires Good(e, st) && WakeOk(commits, st.main) && CS.Numbered(commits) && k in st.main.bindings
    requires CS.Select(commits, st.main.bindings[k].ref, st.main.bindings[k].cursor) != []
    requires c == CS.Select(commits, st.main.bindings[k].ref, st.main.bindings[k].cursor)[0]
    requires !Enqueue(e, st, "supervisor", k.0, LsfsKey(k.1, c.cursor), e.lsfsWake(k.1, c), now).Refused?
    ensures var r := Enqueue(e, st, "supervisor", k.0, LsfsKey(k.1, c.cursor), e.lsfsWake(k.1, c), now);
            && r.Added? && r.msg.key == LsfsKey(k.1, c.cursor)
            && r.state.main == st.main.(mail := st.main.mail[k.0 := BoxOf(st.main.mail, k.0) + [r.msg]])
  {
    hide Good, Admits, LsfsKey;
    NextCommit(commits, st.main.bindings[k]);
    assert BindingOk(commits, st.main.mail, k, st.main.bindings[k]);
    NotYetDelivered(commits, st.main.mail, k, st.main.bindings[k], c.cursor);
  }

  lemma ArtifactScanned(e: Env, commits: seq<CS.Commit>, st: State, k: BindingKey, c: CS.Commit, now: int)
    requires Good(e, st) && WakeOk(commits, st.main) && CS.Numbered(commits) && k in st.main.bindings
    requires CS.Select(commits, st.main.bindings[k].ref, st.main.bindings[k].cursor) != []
    requires c == CS.Select(commits, st.main.bindings[k].ref, st.main.bindings[k].cursor)[0] && c.kind == CS.ArtifactKind
    requires !Enqueue(e, st, "supervisor", k.0, LsfsKey(k.1, c.cursor), e.lsfsWake(k.1, c), now).Refused?
    ensures var m := st.main;
            Scanned(e, commits, st, Delivered(e, st, k.0, LsfsKey(k.1, c.cursor), e.lsfsWake(k.1, c), m.timers,
                                              m.bindings[k := m.bindings[k].(cursor := c.cursor)], m.pending, now))
  {
    var m := st.main;
    var more := m.bindings[k := m.bindings[k].(cursor := c.cursor)];
    NextCommit(commits, m.bindings[k]);
    assert BindingsOnward(m, m.(bindings := more));
    hide Good, Forward, WakeOk, Enqueue, LsfsKey, BindingsOnward, NoneReturned;
    ArtifactAdded(e, commits, st, k, c, now);
    DeliveredKeeps(e, st, k.0, LsfsKey(k.1, c.cursor), e.lsfsWake(k.1, c), m.timers, more, m.pending, now);
    var msg := Enqueue(e, st, "supervisor", k.0, LsfsKey(k.1, c.cursor), e.lsfsWake(k.1, c), now).msg;
    WakeArtifact(commits, m, k, msg);
    PushReturned(m.mail, k.0, msg);
  }

  lemma OneCommitScanned(e: Env, commits: seq<CS.Commit>, st: State, k: BindingKey, c: CS.Commit, now: int)
    requires Good(e, st) && WakeOk(commits, st.main) && CS.Numbered(commits) && k in st.main.bindings
    requires CS.Select(commits, st.main.bindings[k].ref, st.main.bindings[k].cursor) != []
    requires c == CS.Select(commits, st.main.bindings[k].ref, st.main.bindings[k].cursor)[0]
    requires OneCommit(e, st, k, c, now).Moved?
    ensures var after := OneCommit(e, st, k, c, now).state;
            && Scanned(e, commits, st, after) && k in after.main.bindings
            && after.main.bindings[k] == st.main.bindings[k].(cursor := c.cursor)
  {
    hide Good, Forward, WakeOk, Enqueue, LsfsKey, Scanned, Enqueued;
    if c.kind == CS.ArtifactKind {
      ArtifactScanned(e, commits, st, k, c, now);
    } else {
      SkipScanned(e, commits, st, k, c);
    }
  }

  /** Any prefix of the commits past the cursor may be scanned. */
  lemma {:induction false} ScanScanned(e: Env, commits: seq<CS.Commit>, st: State, k: BindingKey, cs: seq<CS.Commit>, now: int)
    requires Good(e, st) && WakeOk(commits, st.main) && CS.Numbered(commits) && k in st.main.bindings
    requires cs <= CS.Select(commits, st.main.bindings[k].ref, st.main.bindings[k].cursor)
    requires Scan(e, st, k, cs, now).Ok?
    ensures Scanned(e, commits, st, Scan(e, st, k, cs, now).value)
    decreases |cs|
  {
    hide Good, WakeOk, Scanned, OneCommit;
    ScannedRefl(e, commits, st);
    if cs != [] && OneCommit(e, st, k, cs[0], now).Moved? {
      var b := st.main.bindings[k];
      OneCommitScanned(e, commits, st, k, cs[0], now);
      var after := OneCommit(e, st, k, cs[0], now).state;
      ScannedIs(e, commits, st, after);
      CS.SelectResumes(commits, b.ref, b.cursor, 1);
      ScanScanned(e, commits, after, k, cs[1..], now);
      ScannedTransitive(e, commits, st, after, Scan(e, st, k, cs, now).value);
    }
  }

  lemma ScannedIs(e: Env, commits: seq<CS.Commit>, a: State, b: State)
    requires Scanned(e, commits, a, b)
    ensures Good(e, b) && WakeOk(commits, b.main) && Forward(a, b) && b.asks == a.asks && SameButWake(a.main, b.main)
    ensures NoneReturned(a.main.mail, b.main.mail)
  {
  }

  lemma DisableScanned(e: Env, commits: seq<CS.Commit>, st: State, k: BindingKey)
    requires Good(e, st) && WakeOk(commits, st.main) && CS.Numbered(commits) && k in st.main.bindings
    ensures Scanned(e, commits, st, WithBinding(st, k, st.main.bindings[k].(enabled := false)))
  {
    hide Good, Forward, WakeOk;
    var b := st.main.bindings[k].(enabled := false);
    WithBindingKeeps(e, st, k, b);
    var after := WithBinding(st, k, b).main;
    assert AllBenign(st.main.mail, after.mail);
    WakeFrame(commits, commits, st.main, after);
  }

  lemma OneBindingScanned(e: Env, st: State, ctx: CS.Store, k: BindingKey, now: int)
    requires Good(e, st) && WakeOk(ctx.commits, st.main) && CS.Numbered(ctx.commits)
    requires OneBinding(e, st, ctx, k, now).Ok?
    ensures Scanned(e, ctx.commits, st, OneBinding(e, st, ctx, k, now).value)
  {
    hide Good, WakeOk, Scanned, Scan;
    ScannedRefl(e, ctx.commits, st);
    var m := st.main;
    if k in m.bindings && m.bindings[k].enabled {
      if k.0 !in m.apps || m.apps[k.0].state == Tombstoned {
        DisableScanned(e, ctx.commits, st, k);
      } else {
        var cs := CS.Commits(ctx, m.apps[k.0].owner, m.bindings[k].ref, m.bindings[k].cursor, SCAN_BATCH).value;
        ScanScanned(e, ctx.commits, st, k, cs, now);
      }
    }
  }

  /** A whole pass keeps deliveries and artifact commits in step. */
  lemma {:induction false} AllBindingsScanned(e: Env, st: State, ctx: CS.Store, keys: seq<BindingKey>, now: int)
    requires Good(e, st) && WakeOk(ctx.commits, st.main) && CS.Numbered(ctx.commits)
    requires AllBindings(e, st, ctx, keys, now).Ok?
    ensures Scanned(e, ctx.commits, st, AllBindings(e, st, ctx, keys, now).value)
  {
    hide Good, WakeOk, Scanned, OneBinding;
    if keys == [] {
      ScannedRefl(e, ctx.commits, st);
    } else {
      AllBindingsScanned(e, st, ctx, keys[..|keys| - 1], now);
      var before := AllBindings(e, st, ctx, keys[..|keys| - 1], now).value;
      ScannedIs(e, ctx.commits, st, before);
      OneBindingScanned(e, before, ctx, keys[|keys| - 1], now);
      ScannedTransitive(e, ctx.commits, st, before, AllBindings(e, st, ctx, keys, now).value);
    }
  }
}
