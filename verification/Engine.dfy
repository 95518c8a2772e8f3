/**
 * The engine's session protocol: sequenced events, bounded history,
 * transport backpressure, suspend/resume replay and prompt replay.
 */
module EngineProtocol {
  import opened Wrappers
  import opened Text
  import opened Sums
  import opened UsageLedger

  const MAX_SESSIONS := 64
  const MAX_REPLAY_REQUESTS := 128
  const MAX_REQUEST_ID_BYTES := 256
  const MAX_TEXT_BYTES := 262_144
  const MAX_HISTORY_EVENTS := 256
  const MAX_HISTORY_BYTES := 2_097_152
  const MAX_ENGINE_HISTORY_BYTES := 16_777_216

  datatype StopReason = Completed | Failure | Cancelled | BudgetExhausted

  datatype Kind = Started | Chunk | Usage(amount: nat) | Done | Failed

  /** One retained notification; `size` is the length of its encoded params. */
  datatype Event = Event(seqNo: nat, turn: nat, kind: Kind, size: nat)

  /** A session's control state. Its retained events are kept beside it. */
  datatype Session = Session(
    running: bool, cancelled: bool, closed: bool, suspended: bool,
    turn: nat, eventSeq: nat, deliveredSeq: nat,
    requests: map<string, StopReason>, account: Account)

  const FreshSession := Session(false, false, false, false, 0, 0, 0, map[], EmptyAccount)

  /** Retained events, their byte count and how many older ones were dropped. */
  datatype History = History(retained: seq<Event>, bytes: nat, floor: nat)

  const FreshHistory := History([], 0, 0)

  /**
   * What has happened to one session since it was opened: every event emitted,
   * every sequence number the transport accepted, every identified prompt that
   * reached the provider, and the request of the turn in progress.
   */
  datatype Trace = Trace(log: seq<Event>, accepted: seq<nat>, prompts: seq<string>, current: string)

  // ---- Turn shape ----

  datatype Phase = Idle | Opened | Chunked | Reported

  /** The events a turn may emit next; every turn is opened once and ended once. */
  function Advance(p: Phase, k: Kind): Option<Phase> {
    match k
    case Started => if p.Idle? then Some(Opened) else None
    case Chunk => if p.Opened? then Some(Chunked) else None
    case Usage(_) => if p.Opened? || p.Chunked? then Some(Reported) else None
    case Done => if p.Idle? then None else Some(Idle)
    case Failed => if p.Idle? then None else Some(Idle)
  }

  function PhaseOf(log: seq<Event>): Option<Phase> {
    if log == [] then Some(Idle)
    else
      var p := PhaseOf(log[..|log| - 1]);
      if p.None? then None else Advance(p.value, log[|log| - 1].kind)
  }

  /** How many turns have been opened. */
  function Starts(log: seq<Event>): nat {
    if log == [] then 0 else Starts(log[..|log| - 1]) + (if log[|log| - 1].kind.Started? then 1 else 0)
  }

  /** The usage amounts reported, in order. */
  function Amounts(log: seq<Event>): seq<nat> {
    if log == [] then []
    else Amounts(log[..|log| - 1]) + (if log[|log| - 1].kind.Usage? then [log[|log| - 1].kind.amount] else [])
  }

  /** Every event carries the number of the turn it belongs to. */
  predicate Turned(log: seq<Event>) {
    log == [] || (Turned(log[..|log| - 1]) && log[|log| - 1].turn == Starts(log))
  }

  lemma TraceSnoc(log: seq<Event>, e: Event)
    ensures Turned(log + [e]) <==> Turned(log) && e.turn == Starts(log + [e])
    ensures Starts(log + [e]) == Starts(log) + (if e.kind.Started? then 1 else 0)
    ensures Amounts(log + [e]) == Amounts(log) + (if e.kind.Usage? then [e.kind.amount] else [])
    ensures PhaseOf(log).Some? ==> PhaseOf(log + [e]) == Advance(PhaseOf(log).value, e.kind)
  {
    assert (log + [e])[..|log|] == log;
  }

  /** One complete turn: started first, terminal last, at most four events, all with its number. */
  predicate TurnBlock(b: seq<Event>, turn: nat) {
    && 2 <= |b| <= 4
    && (forall i | 0 <= i < |b| :: b[i].turn == turn)
    && b[0].kind.Started?
    && (b[|b| - 1].kind.Done? || b[|b| - 1].kind.Failed?)
    && forall i | 0 < i < |b| - 1 :: b[i].kind.Chunk? || b[i].kind.Usage?
  }

  function Flatten(bs: seq<seq<Event>>): seq<Event> {
    if bs == [] then [] else Flatten(bs[..|bs| - 1]) + bs[|bs| - 1]
  }

  /** The part of the log that belongs to the turn in progress. */
  function OpenTail(log: seq<Event>): (n: nat)
    requires PhaseOf(log).Some?
    ensures n <= |log|
    ensures PhaseOf(log[..n]) == Some(Idle)
    ensures PhaseOf(log).value.Idle? <==> n == |log|
    ensures n < |log| ==> log[n].kind.Started?
    ensures |log| - n <= match PhaseOf(log).value case Idle => 0 case Opened => 1 case Chunked => 2 case Reported => 3
    ensures forall i | n < i < |log| :: log[i].kind.Chunk? || log[i].kind.Usage?
    ensures Starts(log) == Starts(log[..n]) + (if n < |log| then 1 else 0)
  {
    if log == [] then 0
    else
      var rest := log[..|log| - 1];
      var n := OpenTail(rest);
      assert rest[..n] == log[..n];
      assert log[..|log|] == log;
      if PhaseOf(log).value.Idle? then |log| else n
  }

  lemma {:induction false} TurnedAt(log: seq<Event>, i: nat)
    requires Turned(log) && i < |log|
    ensures log[i].turn == Starts(log[..i + 1])
  {
    if i == |log| - 1 {
      assert log[..i + 1] == log;
    } else {
      var rest := log[..|log| - 1];
      TurnedAt(rest, i);
      assert rest[..i + 1] == log[..i + 1];
    }
  }

  lemma {:induction false} TurnedPrefix(log: seq<Event>, n: nat)
    requires Turned(log) && n <= |log|
    ensures Turned(log[..n])
  {
    if n == |log| {
      assert log[..n] == log;
    } else {
      TurnedPrefix(log[..|log| - 1], n);
      assert log[..|log| - 1][..n] == log[..n];
    }
  }

  /** After the event that opens a turn, and until the next one opens, the number of turns stays. */
  lemma {:induction false} StartsOnce(log: seq<Event>, n: nat, k: nat)
    requires n < k <= |log| && log[n].kind.Started?
    requires forall i | n < i < k :: !log[i].kind.Started?
    ensures Starts(log[..k]) == Starts(log[..n]) + 1
  {
    assert log[..k][..k - 1] == log[..k - 1];
    if k > n + 1 {
      StartsOnce(log, n, k - 1);
    }
  }

  lemma FlattenSnoc(bs: seq<seq<Event>>, b: seq<Event>)
    ensures Flatten([]) == [] && Flatten(bs + [b]) == Flatten(bs) + b
  {
    assert (bs + [b])[..|bs|] == bs;
  }

  /** The turn that ends a settled log, and the log before it. */
  lemma LastBlock(log: seq<Event>) returns (n: nat)
    requires log != [] && PhaseOf(log) == Some(Idle) && Turned(log)
    ensures n < |log| && PhaseOf(log[..n]) == Some(Idle) && Turned(log[..n])
    ensures Starts(log) == Starts(log[..n]) + 1 && TurnBlock(log[n..], Starts(log[..n]) + 1)
  {
    hide PhaseOf, Starts, Turned, OpenTail, TurnBlock;
    EndsTurn(log);
    var rest := log[..|log| - 1];
    n := OpenTail(rest);
    assert rest[..n] == log[..n];
    TurnedPrefix(log, n);
    LastTurn(log, n);
  }

  /** A settled log is a sequence of complete turns, the i-th with the number i + 1. */
  lemma {:induction false} SettledLogIsTurns(log: seq<Event>) returns (bs: seq<seq<Event>>)
    requires PhaseOf(log) == Some(Idle) && Turned(log)
    ensures log == Flatten(bs) && |bs| == Starts(log)
    ensures forall i | 0 <= i < |bs| :: TurnBlock(bs[i], i + 1)
    decreases |log|
  {
    if log == [] {
      bs := [];
    } else {
      hide PhaseOf, Starts, Turned, TurnBlock, Flatten;
      var n := LastBlock(log);
      var earlier := SettledLogIsTurns(log[..n]);
      bs := earlier + [log[n..]];
      FlattenSnoc(earlier, log[n..]);
      assert log == log[..n] + log[n..];
    }
  }

  lemma EndsTurn(log: seq<Event>)
    requires log != [] && PhaseOf(log) == Some(Idle)
    ensures var rest, last := log[..|log| - 1], log[|log| - 1];
            && PhaseOf(rest).Some? && !PhaseOf(rest).value.Idle? && (last.kind.Done? || last.kind.Failed?) && Starts(log) == Starts(rest)
  {
  }

  lemma BlockOf(log: seq<Event>, n: nat)
    requires n < |log| - 1 <= n + 3 && log[n].kind.Started? && (log[|log| - 1].kind.Done? || log[|log| - 1].kind.Failed?)
    requires Turned(log) && forall i | n < i < |log| - 1 :: log[i].kind.Chunk? || log[i].kind.Usage?
    ensures TurnBlock(log[n..], Starts(log[..n]) + 1)
  {
    hide Turned, Starts;
    var b := log[n..];
    forall i | 0 <= i < |b|
      ensures b[i].turn == Starts(log[..n]) + 1
      ensures 0 < i < |b| - 1 ==> b[i].kind.Chunk? || b[i].kind.Usage?
    {
      assert b[i] == log[n + i];
      TurnedAt(log, n + i);
      StartsOnce(log, n, n + i + 1);
    }
  }

  lemma LastTurn(log: seq<Event>, n: nat)
    requires log != [] && PhaseOf(log) == Some(Idle) && PhaseOf(log[..|log| - 1]).Some? && n == OpenTail(log[..|log| - 1])
    requires Turned(log)
    ensures TurnBlock(log[n..], Starts(log[..n]) + 1)
    ensures Starts(log) == Starts(log[..n]) + 1
  {
    hide PhaseOf, Starts, OpenTail, TurnBlock, Turned;
    EndsTurn(log);
    var rest := log[..|log| - 1];
    assert rest[..n] == log[..n];
    assert rest[n] == log[n];
    forall i | n < i < |log| - 1
      ensures log[i].kind.Chunk? || log[i].kind.Usage?
    {
      assert rest[i] == log[i];
    }
    BlockOf(log, n);
  }

  // ---- Per-session invariants ----

  function Bytes(ev: seq<Event>): nat {
    if ev == [] then 0 else ev[0].size + Bytes(ev[1..])
  }

  lemma {:induction false} BytesSnoc(ev: seq<Event>, e: Event)
    ensures Bytes(ev + [e]) == Bytes(ev) + e.size
  {
    if ev == [] {
      assert (ev + [e])[1..] == [];
    } else {
      assert (ev + [e])[1..] == ev[1..] + [e];
      BytesSnoc(ev[1..], e);
    }
  }

  function Upto(n: nat): (s: seq<nat>)
    ensures |s| == n
    ensures forall i | 0 <= i < n :: s[i] == i + 1
  {
    if n == 0 then [] else Upto(n - 1) + [n]
  }

  ghost predicate Numbered(log: seq<Event>) {
    forall i | 0 <= i < |log| :: log[i].seqNo == i + 1 && log[i].size > 0
  }

  /** Retained events are exactly the tail of the log above the floor. */
  ghost predicate HistoryExact(eventSeq: nat, h: History, log: seq<Event>) {
    && |log| == eventSeq && Numbered(log)
    && h.floor + |h.retained| == eventSeq
    && h.retained == log[h.floor..]
    && h.bytes == Bytes(h.retained)
  }

  predicate WithinCaps(h: History) {
    |h.retained| <= MAX_HISTORY_EVENTS && h.bytes <= MAX_HISTORY_BYTES
  }

  /** The transport has accepted 1..deliveredSeq, once each and in order. */
  ghost predicate DeliveryExact(transport: bool, s: Session, t: Trace) {
    && t.accepted == Upto(s.deliveredSeq)
    && s.deliveredSeq <= s.eventSeq
    && (transport && !s.suspended ==> s.deliveredSeq == s.eventSeq)
    && (!transport ==> s.deliveredSeq == 0)
  }

  ghost predicate NoDuplicates(xs: seq<string>) {
    forall i, j | 0 <= i < j < |xs| :: xs[i] != xs[j]
  }

  /** Turn counter, turn shape and ledger agree with the log. */
  ghost predicate TurnExact(s: Session, t: Trace) {
    && PhaseOf(t.log) == Some(if s.running then Opened else Idle)
    && Starts(t.log) == s.turn <= MAX_UINT64 && Turned(t.log)
    && s.eventSeq <= (if s.running then MAX_UINT64 - 3 else MAX_UINT64)
    && LedgerExact(s, t, [])
  }

  /** The ledger holds every amount reported, and `owed` ones still to be reported. */
  ghost predicate LedgerExact(s: Session, t: Trace, owed: seq<nat>) {
    && s.account.hardLimit == 0 && s.account.used == Charge(Amounts(t.log) + owed)
    && s.account.lastId == s.account.lastSeq <= s.turn
    && (s.running && owed == [] && PhaseOf(t.log) == Some(Opened) ==> s.account.lastSeq < s.turn)
  }

  /** An identified prompt ran at most once, and its outcome is remembered or owed. */
  ghost predicate ReplayExact(s: Session, t: Trace) {
    && NoDuplicates(t.prompts)
    && |s.requests| + (if Owed(s, t) == {} then 0 else 1) <= MAX_REPLAY_REQUESTS
    && Owed(s, t) !! s.requests.Keys
    && (set p | p in t.prompts) == s.requests.Keys + Owed(s, t)
  }

  /** The identified request whose outcome is still to be remembered. */
  ghost function Owed(s: Session, t: Trace): set<string> {
    if s.running && t.current != "" then {t.current} else {}
  }

  ghost predicate AccountsExact(s: Session, t: Trace) {
    TurnExact(s, t) && ReplayExact(s, t)
  }

  // ---- Cells ----

  /** One open session: control state, retained history and trace. */
  datatype Cell = Cell(s: Session, h: History, t: Trace)

  const FreshCell := Cell(FreshSession, FreshHistory, Trace([], [], [], ""))

  ghost predicate Exact(c: Cell) { HistoryExact(c.s.eventSeq, c.h, c.t.log) }

  /** Good enough to emit from: books, caps and delivery are right. */
  ghost predicate Ready(transport: bool, c: Cell) {
    Exact(c) && WithinCaps(c.h) && DeliveryExact(transport, c.s, c.t)
  }

  ghost predicate CellOk(transport: bool, c: Cell) {
    Ready(transport, c) && AccountsExact(c.s, c.t)
  }

  /** A cell without its oldest retained event. */
  function EvictedCell(c: Cell): Cell
    requires c.h.retained != [] && c.h.retained[0].size <= c.h.bytes
  {
    c.(h := History(c.h.retained[1..], c.h.bytes - c.h.retained[0].size, c.h.floor + 1))
  }

  lemma EvictedExact(c: Cell)
    requires Exact(c) && c.h.retained != []
    ensures 0 < c.h.retained[0].size <= c.h.bytes
    ensures Exact(EvictedCell(c))
  {
    assert c.h.retained[0] == c.t.log[c.h.floor];
    assert c.h.retained[1..] == c.t.log[c.h.floor + 1..];
  }

  function AppendedCell(c: Cell, kind: Kind, size: nat): Cell {
    var e := Event(c.s.eventSeq + 1, c.s.turn, kind, size);
    Cell(c.s.(eventSeq := c.s.eventSeq + 1),
         c.h.(retained := c.h.retained + [e], bytes := c.h.bytes + size),
         c.t.(log := c.t.log + [e]))
  }

  lemma AppendedExact(c: Cell, kind: Kind, size: nat)
    requires Exact(c) && size > 0
    ensures Exact(AppendedCell(c, kind, size))
  {
    hide Bytes;
    var e := Event(c.s.eventSeq + 1, c.s.turn, kind, size);
    BytesSnoc(c.h.retained, e);
    assert (c.t.log + [e])[c.h.floor..] == c.t.log[c.h.floor..] + [e];
  }

  /** The transport's answer to the newest event, if it is asked. */
  function AnsweredCell(transport: bool, c: Cell, accept: bool): Cell {
    if !transport || c.s.suspended then c
    else if accept then
      c.(s := c.s.(deliveredSeq := c.s.eventSeq), t := c.t.(accepted := c.t.accepted + [c.s.eventSeq]))
    else c.(s := c.s.(suspended := true))
  }

  lemma UptoNext(n: nat)
    ensures Upto(n) + [n + 1] == Upto(n + 1)
  {
  }

  /** Append then answer keeps delivery gap-free; `d` is the appended cell after eviction. */
  lemma AnsweredDelivers(transport: bool, c: Cell, kind: Kind, size: nat, d: Cell, accept: bool)
    requires DeliveryExact(transport, c.s, c.t)
    requires d == AppendedCell(c, kind, size).(h := d.h)
    ensures var e := AnsweredCell(transport, d, accept); DeliveryExact(transport, e.s, e.t)
  {
    UptoNext(c.s.eventSeq);
  }

  // ---- The whole engine ----

  function Sizes(cells: map<nat, Cell>): map<nat, nat> {
    map id | id in cells :: cells[id].h.bytes
  }

  /** Everything the engine lock protects; `past` keeps the traces of released sessions. */
  datatype View = View(transport: bool, cells: map<nat, Cell>, historyBytes: nat,
                       nextSession: nat, closed: bool, past: map<nat, Trace>)

  ghost predicate Slots(v: View) {
    && |v.cells| <= MAX_SESSIONS && v.nextSession <= MAX_UINT64
    && (forall id | id in v.cells :: 1 <= id <= v.nextSession)
    && (forall id | id in v.past :: 1 <= id <= v.nextSession)
  }

  /** A released session's trace: gap-free delivery, no repeated request, only whole turns. */
  ghost predicate PastOk(t: Trace) {
    && t.accepted == Upto(|t.accepted|) && |t.accepted| <= |t.log|
    && NoDuplicates(t.prompts) && PhaseOf(t.log) == Some(Idle) && Turned(t.log)
  }

  ghost predicate Books(v: View) {
    v.historyBytes == Total(Sizes(v.cells))
  }

  /** What holds whenever the engine lock is free. */
  ghost predicate Inv(v: View) {
    Slots(v) && Books(v) && v.historyBytes <= MAX_ENGINE_HISTORY_BYTES
    && AllOk(v.transport, v.cells) && PastAllOk(v.past)
  }

  ghost predicate AllOk(transport: bool, cells: map<nat, Cell>) {
    forall id {:trigger CellOk(transport, cells[id])} | id in cells :: CellOk(transport, cells[id])
  }

  ghost predicate PastAllOk(past: map<nat, Trace>) {
    forall id {:trigger PastOk(past[id])} | id in past :: PastOk(past[id])
  }

  lemma AllOkPut(transport: bool, cells: map<nat, Cell>, id: nat, c: Cell)
    requires OthersOk(transport, cells, id) && CellOk(transport, c)
    ensures AllOk(transport, cells[id := c])
  {
  }

  lemma AllOkDrop(transport: bool, cells: map<nat, Cell>, id: nat)
    requires AllOk(transport, cells)
    ensures AllOk(transport, cells - {id}) && OthersOk(transport, cells, id)
  {
  }

  lemma PastPut(past: map<nat, Trace>, id: nat, t: Trace)
    requires PastAllOk(past) && PastOk(t)
    ensures PastAllOk(past[id := t])
  {
  }

  /** The invariant while session `id` is being written. */
  ghost predicate Writing(v: View, id: nat) {
    Slots(v) && Books(v) && id in v.cells && Exact(v.cells[id])
    && OthersOk(v.transport, v.cells, id) && PastAllOk(v.past)
  }

  ghost predicate OthersOk(transport: bool, cells: map<nat, Cell>, id: nat) {
    forall x {:trigger CellOk(transport, cells[x])} | x in cells && x != id :: CellOk(transport, cells[x])
  }

  lemma PutOther(transport: bool, cells: map<nat, Cell>, id: nat, x: nat, c: Cell)
    requires OthersOk(transport, cells, id) && (x == id || CellOk(transport, c))
    ensures OthersOk(transport, cells[x := c], id)
  {
  }

  lemma SizesUpdate(cells: map<nat, Cell>, id: nat, c: Cell)
    ensures Total(Sizes(cells[id := c])) ==
            Total(Sizes(cells)) + c.h.bytes - (if id in cells then cells[id].h.bytes else 0)
    ensures id in cells ==> cells[id].h.bytes <= Total(Sizes(cells))
  {
    TotalUpdate(Sizes(cells), id, c.h.bytes);
    assert Sizes(cells[id := c]) == Sizes(cells)[id := c.h.bytes];
    if id in cells {
      TotalRemove(Sizes(cells), id);
    }
  }

  lemma SizesRemove(cells: map<nat, Cell>, id: nat)
    requires id in cells
    ensures Total(Sizes(cells - {id})) == Total(Sizes(cells)) - cells[id].h.bytes
  {
    TotalRemove(Sizes(cells), id);
    assert Sizes(cells - {id}) == Sizes(cells) - {id};
  }

  /** Writing a new value into an open session. */
  function Put(v: View, id: nat, c: Cell): View
    requires id in v.cells && v.cells[id].h.bytes <= v.historyBytes + c.h.bytes
  {
    v.(cells := v.cells[id := c], historyBytes := v.historyBytes + c.h.bytes - v.cells[id].h.bytes)
  }

  lemma PutSlots(v: View, id: nat, c: Cell)
    requires Slots(v) && id in v.cells
    ensures Slots(v.(cells := v.cells[id := c]))
  {
    assert v.cells[id := c].Keys == v.cells.Keys;
    assert |v.cells[id := c].Keys| == |v.cells.Keys|;
  }

  lemma PutBooks(v: View, id: nat, c: Cell)
    requires Books(v) && id in v.cells
    ensures v.cells[id].h.bytes <= v.historyBytes
    ensures Books(Put(v, id, c))
  {
    SizesUpdate(v.cells, id, c);
  }

  lemma PutWriting(v: View, id: nat, c: Cell)
    requires Writing(v, id) && Exact(c)
    ensures v.cells[id].h.bytes <= v.historyBytes && Writing(Put(v, id, c), id)
  {
    PutSlots(v, id, c);
    PutBooks(v, id, c);
    PutOther(v.transport, v.cells, id, id, c);
  }

  /** Opening a session for writing forgets only that session's invariant. */
  lemma Open(v: View, id: nat)
    requires Inv(v) && id in v.cells
    ensures Writing(v, id) && CellOk(v.transport, v.cells[id])
  {
    assert CellOk(v.transport, v.cells[id]);
    AllOkDrop(v.transport, v.cells, id);
  }

  lemma Close(v: View, id: nat)
    requires Writing(v, id) && CellOk(v.transport, v.cells[id]) && v.historyBytes <= MAX_ENGINE_HISTORY_BYTES
    ensures Inv(v)
  {
    AllOkPut(v.transport, v.cells, id, v.cells[id]);
    assert v.cells[id := v.cells[id]] == v.cells;
  }

  /** Changing one session without touching its history. */
  lemma TouchInv(v: View, id: nat, c: Cell)
    requires Inv(v) && id in v.cells && c.h == v.cells[id].h && CellOk(v.transport, c)
    ensures Inv(v.(cells := v.cells[id := c]))
  {
    Open(v, id);
    PutWriting(v, id, c);
    Close(Put(v, id, c), id);
  }

  // ---- Eviction ----

  function EvictFrom(v: View, x: nat): View
    requires x in v.cells && v.cells[x].h.retained != []
    requires v.cells[x].h.retained[0].size <= v.cells[x].h.bytes <= v.historyBytes
  {
    Put(v, x, EvictedCell(v.cells[x]))
  }

  /** Only histories shrank between two views. */
  ghost predicate Trimmed(v: View, w: View) {
    && w == v.(cells := w.cells, historyBytes := w.historyBytes)
    && w.cells.Keys == v.cells.Keys
    && forall x | x in w.cells :: TrimmedCell(v.cells[x], w.cells[x])
  }

  ghost predicate TrimmedCell(c: Cell, d: Cell) {
    d == c.(h := d.h) && |d.h.retained| <= |c.h.retained| && d.h.bytes <= c.h.bytes
  }

  lemma EvictedOk(transport: bool, c: Cell)
    requires CellOk(transport, c) && c.h.retained != []
    ensures c.h.retained[0].size <= c.h.bytes && CellOk(transport, EvictedCell(c))
  {
    EvictedExact(c);
  }

  lemma EvictKeepsWriting(v: View, id: nat, x: nat)
    requires Writing(v, id) && x in v.cells && v.cells[x].h.retained != []
    ensures 0 < v.cells[x].h.retained[0].size <= v.cells[x].h.bytes <= v.historyBytes
    ensures Writing(EvictFrom(v, x), id)
  {
    var c := v.cells[x];
    assert x != id ==> CellOk(v.transport, c);
    EvictedExact(c);
    if x == id {
      PutWriting(v, id, EvictedCell(c));
    } else {
      EvictedOk(v.transport, c);
      PutOtherWriting(v, id, x, EvictedCell(c));
    }
  }

  lemma PutOtherWriting(v: View, id: nat, x: nat, c: Cell)
    requires Writing(v, id) && x in v.cells && x != id && CellOk(v.transport, c)
    ensures v.cells[x].h.bytes <= v.historyBytes && Writing(Put(v, x, c), id)
  {
    PutSlots(v, x, c);
    PutBooks(v, x, c);
    PutOther(v.transport, v.cells, id, x, c);
  }

  lemma EvictTrims(v: View, x: nat)
    requires x in v.cells && v.cells[x].h.retained != []
    requires v.cells[x].h.retained[0].size <= v.cells[x].h.bytes <= v.historyBytes
    ensures Trimmed(v, EvictFrom(v, x))
  {
  }

  lemma TrimmedTransitive(u: View, v: View, w: View)
    requires Trimmed(u, v) && Trimmed(v, w)
    ensures Trimmed(u, w)
  {
    forall x | x in w.cells
      ensures TrimmedCell(u.cells[x], w.cells[x])
    {
      assert TrimmedCell(u.cells[x], v.cells[x]) && TrimmedCell(v.cells[x], w.cells[x]);
    }
  }

  lemma NothingRetained(v: View, id: nat)
    requires Writing(v, id) && forall x | x in v.cells :: v.cells[x].h.retained == []
    ensures v.historyBytes == 0
  {
    forall x | x in v.cells
      ensures Sizes(v.cells)[x] == 0
    {
      assert x != id ==> CellOk(v.transport, v.cells[x]);
    }
    TotalZero(Sizes(v.cells));
  }

  // ---- Turns ----

  ghost predicate SameButHistory(c: Cell, d: Cell) { c.s == d.s && c.t == d.t }

  /** Session `id` was written; the others at most lost history. */
  ghost predicate Wrote(v: View, w: View, id: nat) {
    && w == v.(cells := w.cells, historyBytes := w.historyBytes)
    && w.cells.Keys == v.cells.Keys
    && forall x | x in w.cells && x != id :: SameButHistory(v.cells[x], w.cells[x])
  }

  /** The turn in progress is still the same request on the same session. */
  ghost predicate SameRequest(c: Cell, d: Cell) {
    c.t.current == d.t.current && c.t.prompts == d.t.prompts && c.s.closed == d.s.closed
  }

  lemma PutWrote(v: View, id: nat, c: Cell)
    requires id in v.cells && v.cells[id].h.bytes <= v.historyBytes + c.h.bytes
    ensures Wrote(v, Put(v, id, c), id)
  {
  }

  lemma TrimmedWrote(u: View, v: View, w: View, id: nat)
    requires Wrote(u, v, id) && Trimmed(v, w)
    ensures Wrote(u, w, id)
  {
    forall x | x in w.cells && x != id
      ensures SameButHistory(u.cells[x], w.cells[x])
    {
      assert SameButHistory(u.cells[x], v.cells[x]) && TrimmedCell(v.cells[x], w.cells[x]);
    }
  }

  lemma WroteReflexive(v: View, id: nat)
    ensures Wrote(v, v, id)
  {
  }

  lemma WroteTransitive(u: View, v: View, w: View, id: nat)
    requires Wrote(u, v, id) && Wrote(v, w, id)
    ensures Wrote(u, w, id)
  {
    forall x | x in w.cells && x != id
      ensures SameButHistory(u.cells[x], w.cells[x])
    {
      assert SameButHistory(u.cells[x], v.cells[x]) && SameButHistory(v.cells[x], w.cells[x]);
    }
  }

  function EmittedCell(transport: bool, c: Cell, kind: Kind, size: nat, accept: bool): Cell {
    AnsweredCell(transport, AppendedCell(c, kind, size), accept)
  }

  /** The session as a prompt leaves it just before its first event. */
  function Begun(c: Cell, request: string): Cell {
    c.(s := c.s.(running := true, cancelled := false, turn := c.s.turn + 1),
       t := c.t.(prompts := if request == "" then c.t.prompts else c.t.prompts + [request], current := request))
  }

  /** Which requests may start a turn. */
  predicate MayStart(s: Session, request: string) {
    && !s.closed && !s.suspended && !s.running
    && (request == "" || (request !in s.requests && |s.requests| < MAX_REPLAY_REQUESTS))
    && s.turn < MAX_UINT64 && s.eventSeq <= MAX_UINT64 - 4
  }

  lemma BegunReplay(c: Cell, request: string)
    requires ReplayExact(c.s, c.t) && MayStart(c.s, request)
    ensures ReplayExact(Begun(c, request).s, Begun(c, request).t)
  {
    var d := Begun(c, request);
    if request != "" {
      forall p | p in d.t.prompts
        ensures p in c.s.requests.Keys + {request}
      {
        if p != request {
          assert p in c.t.prompts;
        }
      }
      forall p | p in c.s.requests.Keys + {request}
        ensures p in d.t.prompts
      {
        if p == request {
          assert d.t.prompts[|c.t.prompts|] == request;
        } else {
          assert p in (set q | q in c.t.prompts);
        }
      }
      assert request !in (set q | q in c.t.prompts);
    }
  }

  lemma StartedTurn(transport: bool, c: Cell, request: string, size: nat, accept: bool)
    requires TurnExact(c.s, c.t) && MayStart(c.s, request)
    ensures var d := EmittedCell(transport, Begun(c, request), Started, size, accept); TurnExact(d.s, d.t)
  {
    hide PhaseOf, Starts, Amounts, Charge, Turned;
    var b := Begun(c, request);
    TraceSnoc(c.t.log, Event(b.s.eventSeq + 1, b.s.turn, Started, size));
    assert Amounts(c.t.log) + [] == Amounts(c.t.log);
  }

  /** Emissions do not touch the replay cache. */
  lemma EmittedReplay(transport: bool, c: Cell, kind: Kind, size: nat, accept: bool)
    requires ReplayExact(c.s, c.t)
    ensures var d := EmittedCell(transport, c, kind, size, accept); ReplayExact(d.s, d.t)
  {
  }

  /** A turn under way: what must hold between its events. */
  ghost predicate UnderWay(c: Cell, p: Phase, owed: seq<nat>) {
    && c.s.running && !p.Idle? && PhaseOf(c.t.log) == Some(p)
    && Starts(c.t.log) == c.s.turn <= MAX_UINT64 && Turned(c.t.log)
    && c.s.eventSeq + (match p case Opened => 3 case Chunked => 2 case _ => 1) <= MAX_UINT64
    && LedgerExact(c.s, c.t, owed)
  }

  lemma ChunkEmitted(transport: bool, c: Cell, owed: seq<nat>, size: nat, accept: bool)
    requires UnderWay(c, Opened, owed)
    ensures UnderWay(EmittedCell(transport, c, Chunk, size, accept), Chunked, owed)
  {
    hide PhaseOf, Starts, Amounts, Charge, Turned;
    TraceSnoc(c.t.log, Event(c.s.eventSeq + 1, c.s.turn, Chunk, size));
    assert Amounts(c.t.log) + [] == Amounts(c.t.log);
  }

  lemma UsageEmitted(transport: bool, c: Cell, p: Phase, amount: nat, size: nat, accept: bool)
    requires UnderWay(c, p, [amount]) && (p.Opened? || p.Chunked?)
    ensures UnderWay(EmittedCell(transport, c, Usage(amount), size, accept), Reported, [])
  {
    hide PhaseOf, Starts, Amounts, Charge, Turned;
    TraceSnoc(c.t.log, Event(c.s.eventSeq + 1, c.s.turn, Usage(amount), size));
    assert Amounts(c.t.log) + [amount] + [] == Amounts(c.t.log) + [amount];
  }

  predicate Remembered(s: Session, request: string, reason: StopReason) {
    request != "" ==> request in s.requests && s.requests[request] == reason
  }

  /** The session once its turn is over and its outcome remembered. */
  function Ended(c: Cell, reason: StopReason): Cell {
    c.(s := c.s.(running := false,
                 requests := if c.t.current == "" then c.s.requests else c.s.requests[c.t.current := reason]))
  }

  lemma TerminalEmitted(transport: bool, c: Cell, p: Phase, kind: Kind, size: nat, accept: bool, reason: StopReason)
    requires UnderWay(c, p, []) && (kind.Done? || kind.Failed?)
    ensures var d := Ended(EmittedCell(transport, c, kind, size, accept), reason); TurnExact(d.s, d.t)
  {
    hide PhaseOf, Starts, Amounts, Charge, Turned;
    TraceSnoc(c.t.log, Event(c.s.eventSeq + 1, c.s.turn, kind, size));
    assert Amounts(c.t.log) + [] == Amounts(c.t.log);
  }

  lemma EndedReplay(c: Cell, reason: StopReason)
    requires ReplayExact(c.s, c.t) && c.s.running
    ensures var d := Ended(c, reason); ReplayExact(d.s, d.t)
  {
    if c.t.current != "" {
      assert Owed(c.s, c.t) == {c.t.current};
      assert c.s.requests[c.t.current := reason].Keys == c.s.requests.Keys + {c.t.current};
      assert |c.s.requests[c.t.current := reason].Keys| == |c.s.requests.Keys| + 1;
    }
  }

  lemma PostApplies(c: Cell, amount: nat)
    requires UnderWay(c, Opened, [])
    ensures Post(c.s.account, c.s.turn, c.s.turn, amount).1.Applied?
    ensures UnderWay(c.(s := c.s.(account := Post(c.s.account, c.s.turn, c.s.turn, amount).0)), Opened, [amount])
  {
    assert Amounts(c.t.log) + [] == Amounts(c.t.log);
    ChargeSnoc(Amounts(c.t.log), amount);
  }

  /** The engine while the provider result of session `id` is being written out. */
  ghost predicate Turning(v: View, id: nat, p: Phase, owed: seq<nat>) {
    Writing(v, id) && v.historyBytes <= MAX_ENGINE_HISTORY_BYTES
    && Ready(v.transport, v.cells[id]) && UnderWay(v.cells[id], p, owed)
    && ReplayExact(v.cells[id].s, v.cells[id].t)
  }

  lemma UnderWayFramed(c: Cell, d: Cell, p: Phase, owed: seq<nat>)
    requires SameButHistory(c, d)
    ensures UnderWay(c, p, owed) == UnderWay(d, p, owed)
  {
  }

  lemma EndedCellOk(transport: bool, c: Cell, d: Cell, reason: StopReason)
    requires Ready(transport, d) && SameButHistory(c, d)
    requires AccountsExact(Ended(c, reason).s, Ended(c, reason).t)
    ensures CellOk(transport, Ended(d, reason))
  {
  }

  lemma StoreInv(w: View, id: nat, c: Cell)
    requires Writing(w, id) && w.historyBytes <= MAX_ENGINE_HISTORY_BYTES
    requires CellOk(w.transport, c) && c.h == w.cells[id].h
    ensures Inv(w.(cells := w.cells[id := c]))
  {
    PutWriting(w, id, c);
    Close(Put(w, id, c), id);
  }

  lemma BegunReady(transport: bool, c: Cell, request: string)
    requires CellOk(transport, c)
    ensures Ready(transport, Begun(c, request)) && Begun(c, request).h == c.h
  {
  }

  /** The cell after a turn's first event is a running session. */
  lemma StartedOk(transport: bool, c: Cell, request: string, size: nat, accept: bool, d: Cell)
    requires CellOk(transport, c) && MayStart(c.s, request) && Ready(transport, d)
    requires SameButHistory(d, EmittedCell(transport, Begun(c, request), Started, size, accept))
    ensures CellOk(transport, d)
  {
    BegunReplay(c, request);
    StartedTurn(transport, c, request, size, accept);
    EmittedReplay(transport, Begun(c, request), Started, size, accept);
  }

  lemma RunningUnderWay(transport: bool, c: Cell)
    requires CellOk(transport, c) && c.s.running
    ensures UnderWay(c, Opened, [])
  {
  }

  /** An open session whose turn is under way, opened for writing. */
  lemma EnterTurn(v: View, id: nat)
    requires Inv(v) && id in v.cells && v.cells[id].s.running
    ensures Turning(v, id, Opened, [])
  {
    Open(v, id);
    RunningUnderWay(v.transport, v.cells[id]);
  }

  lemma PostTurning(v: View, id: nat, amount: nat)
    requires Turning(v, id, Opened, [])
    ensures var c := v.cells[id]; var a := Post(c.s.account, c.s.turn, c.s.turn, amount);
            a.1.Applied? && Turning(v.(cells := v.cells[id := c.(s := c.s.(account := a.0))]), id, Opened, [amount])
  {
    hide Ready, ReplayExact, Exact, OthersOk, Slots, Books, Charge, PhaseOf;
    var c := v.cells[id];
    var d := c.(s := c.s.(account := Post(c.s.account, c.s.turn, c.s.turn, amount).0));
    PostApplies(c, amount);
    ReadyExact(v.transport, c);
    AccountOnly(v.transport, c, d.s.account);
    ReadyExact(v.transport, d);
    PutWriting(v, id, d);
    assert Put(v, id, d) == v.(cells := v.cells[id := d]);
  }

  lemma AccountOnly(transport: bool, c: Cell, account: Account)
    requires Ready(transport, c) && ReplayExact(c.s, c.t)
    ensures var d := c.(s := c.s.(account := account)); Ready(transport, d) && ReplayExact(d.s, d.t)
  {
    hide Exact;
    SameExact(c, account);
  }

  lemma SameExact(c: Cell, account: Account)
    requires Exact(c)
    ensures Exact(c.(s := c.s.(account := account)))
  {
  }

  // ---- Resume ----

  /** A session whose transport took the events up to `upto`, each once and in order. */
  function ReplayedTo(c: Cell, upto: nat): Cell {
    c.(s := c.s.(deliveredSeq := upto), t := c.t.(accepted := Upto(upto)))
  }

  /** One event handed to the transport and taken. */
  function Taken(c: Cell, e: Event): Cell { c.(t := c.t.(accepted := c.t.accepted + [e.seqNo])) }

  /** What a replay starts from. */
  ghost predicate Behind(c: Cell) {
    Exact(c) && c.t.accepted == Upto(c.s.deliveredSeq) && c.s.deliveredSeq <= c.s.eventSeq
  }

  lemma BehindOf(transport: bool, c: Cell)
    requires CellOk(transport, c)
    ensures Behind(c.(s := c.s.(suspended := false)))
  {
  }

  lemma ReplayStarts(c: Cell)
    requires Behind(c)
    ensures ReplayedTo(c, c.s.deliveredSeq) == c
  {
  }

  /** Taking the next event carries a replay one further. */
  lemma ReplayAdvances(c: Cell, upto: nat, e: Event)
    requires e.seqNo == upto + 1
    ensures var d := Taken(ReplayedTo(c, upto), e); d.(s := d.s.(deliveredSeq := e.seqNo)) == ReplayedTo(c, upto + 1)
  {
    UptoNext(upto);
  }

  lemma SuspendedOk(transport: bool, c: Cell)
    requires CellOk(transport, c)
    ensures CellOk(transport, c.(s := c.s.(suspended := true)))
  {
  }

  /** A session after a replay that got to `upto`. */
  function ResumedTo(c: Cell, upto: nat, suspended: bool): Cell {
    var d := ReplayedTo(c, upto);
    d.(s := d.s.(suspended := suspended))
  }

  lemma ResumedIs(c: Cell, upto: nat, suspended: bool)
    ensures var d := ReplayedTo(c.(s := c.s.(suspended := false)), upto);
            && d.(s := d.s.(suspended := suspended)) == ResumedTo(c, upto, suspended)
            && d.s.deliveredSeq == upto == ResumedTo(c, upto, suspended).s.deliveredSeq && !d.s.suspended
  {
    hide Upto;
  }

  lemma PutTwice(m: map<nat, Cell>, id: nat, c: Cell, d: Cell)
    ensures m[id := c][id := d] == m[id := d]
  {
  }

  /** A replay leaves the session in order: attached if it reached the end, else suspended. */
  lemma ResumedOk(transport: bool, c: Cell, upto: nat, suspended: bool)
    requires CellOk(transport, c) && c.s.deliveredSeq <= upto <= c.s.eventSeq
    requires transport && !suspended ==> upto == c.s.eventSeq
    requires !transport ==> upto == c.s.deliveredSeq
    ensures var d := ResumedTo(c, upto, suspended);
            CellOk(transport, d) && c.t.accepted <= d.t.accepted && (upto == c.s.deliveredSeq ==> d.t == c.t)
  {
  }

  lemma ResumedInv(v: View, id: nat, upto: nat, suspended: bool)
    requires Inv(v) && id in v.cells && v.cells[id].s.deliveredSeq <= upto <= v.cells[id].s.eventSeq
    requires v.transport && !suspended ==> upto == v.cells[id].s.eventSeq
    requires !v.transport ==> upto == v.cells[id].s.deliveredSeq
    ensures var c := v.cells[id]; var d := ResumedTo(c, upto, suspended);
            && Inv(v.(cells := v.cells[id := d]))
            && c.t.accepted <= d.t.accepted && (upto == c.s.deliveredSeq ==> d.t == c.t)
  {
    hide Inv, CellOk, Writing;
    Open(v, id);
    ResumedOk(v.transport, v.cells[id], upto, suspended);
    TouchInv(v, id, ResumedTo(v.cells[id], upto, suspended));
  }

  /** A session told to stop: a running turn is cancelled, closing is sticky. */
  function Stopped(c: Cell, close: bool): Cell {
    c.(s := c.s.(cancelled := c.s.running || c.s.cancelled, closed := c.s.closed || close))
  }

  lemma StoppedOk(transport: bool, c: Cell, close: bool)
    requires CellOk(transport, c)
    ensures CellOk(transport, Stopped(c, close))
  {
  }

  lemma StopInv(v: View, id: nat, close: bool)
    requires Inv(v) && id in v.cells
    ensures Inv(v.(cells := v.cells[id := Stopped(v.cells[id], close)]))
  {
    Open(v, id);
    hide Inv, CellOk, Writing;
    StoppedOk(v.transport, v.cells[id], close);
    TouchInv(v, id, Stopped(v.cells[id], close));
  }

  lemma OpenExact(v: View, id: nat)
    requires Inv(v) && id in v.cells
    ensures Exact(v.cells[id])
  {
    assert CellOk(v.transport, v.cells[id]);
  }

  lemma RetainedSuffix(c: Cell, seqNo: nat)
    requires Exact(c) && c.h.floor <= seqNo
    ensures |c.t.log| == c.h.floor + |c.h.retained|
    ensures seqNo <= |c.t.log| ==> c.h.retained[seqNo - c.h.floor..] == c.t.log[seqNo..]
  {
  }

  lemma ClosedInv(v: View)
    requires Inv(v)
    ensures Inv(v.(closed := true))
  {
  }

  /** The i-th retained event carries the number floor + i + 1. */
  lemma RetainedNumber(c: Cell, i: nat)
    requires Exact(c) && i < |c.h.retained|
    ensures c.h.retained[i].seqNo == c.h.floor + i + 1
  {
    assert c.h.retained[i] == c.t.log[c.h.floor + i];
  }

  lemma FloorFits(c: Cell)
    requires Exact(c)
    ensures c.h.floor + |c.h.retained| == c.s.eventSeq
  {
  }

  // ---- Release ----

  function Released(v: View, id: nat): View
    requires id in v.cells && v.cells[id].h.bytes <= v.historyBytes
  {
    v.(cells := v.cells - {id}, historyBytes := v.historyBytes - v.cells[id].h.bytes,
       past := v.past[id := v.cells[id].t])
  }

  lemma ReleasedSlots(v: View, id: nat)
    requires Slots(v) && id in v.cells && v.cells[id].h.bytes <= v.historyBytes
    ensures Slots(Released(v, id))
  {
    assert (v.cells - {id}).Keys == v.cells.Keys - {id};
    assert |(v.cells - {id}).Keys| == |v.cells.Keys| - 1;
  }

  lemma SettledTrace(transport: bool, c: Cell)
    requires CellOk(transport, c) && !c.s.running
    ensures PastOk(c.t)
  {
  }

  lemma ReleaseInv(v: View, id: nat)
    requires Inv(v) && id in v.cells && !v.cells[id].s.running
    ensures v.cells[id].h.bytes <= v.historyBytes && Inv(Released(v, id))
  {
    ReleasedBooks(v, id);
    ReleasedSlots(v, id);
    ReleasedPast(v, id);
    AllOkDrop(v.transport, v.cells, id);
  }

  lemma ReleasedBooks(v: View, id: nat)
    requires Books(v) && id in v.cells
    ensures v.cells[id].h.bytes <= v.historyBytes && Books(Released(v, id))
  {
    PutBooks(v, id, v.cells[id]);
    SizesRemove(v.cells, id);
  }

  lemma ReleasedPast(v: View, id: nat)
    requires AllOk(v.transport, v.cells) && PastAllOk(v.past) && id in v.cells && !v.cells[id].s.running
    ensures PastAllOk(v.past[id := v.cells[id].t])
  {
    SettledTrace(v.transport, v.cells[id]);
    PastPut(v.past, id, v.cells[id].t);
  }

  // ---- Opening ----

  function WithNewSession(v: View): View {
    v.(cells := v.cells[v.nextSession + 1 := FreshCell], nextSession := v.nextSession + 1)
  }

  lemma FreshOk(transport: bool)
    ensures CellOk(transport, FreshCell)
  {
    assert FreshCell.t.log == [];
  }

  lemma NewSlots(v: View)
    requires Slots(v) && |v.cells| < MAX_SESSIONS && v.nextSession < MAX_UINT64
    ensures v.nextSession + 1 !in v.cells && v.nextSession + 1 !in v.past && Slots(WithNewSession(v))
  {
    var id := v.nextSession + 1;
    OneMore(v.cells, id, FreshCell);
  }

  lemma OneMore(cells: map<nat, Cell>, id: nat, c: Cell)
    ensures |cells[id := c]| <= |cells| + 1
  {
    var more := cells[id := c];
    assert more.Keys == cells.Keys + {id};
    assert |more.Keys| == |more| && |cells.Keys| == |cells|;
  }

  lemma NewBooks(v: View)
    requires Books(v) && v.nextSession + 1 !in v.cells
    ensures Books(WithNewSession(v))
  {
    SizesUpdate(v.cells, v.nextSession + 1, FreshCell);
  }

  lemma NewCells(v: View)
    requires AllOk(v.transport, v.cells)
    ensures AllOk(v.transport, WithNewSession(v).cells)
  {
    FreshOk(v.transport);
    AllOkDrop(v.transport, v.cells, v.nextSession + 1);
    AllOkPut(v.transport, v.cells, v.nextSession + 1, FreshCell);
  }

  lemma NewInv(v: View)
    requires Inv(v) && |v.cells| < MAX_SESSIONS && v.nextSession < MAX_UINT64
    ensures v.nextSession + 1 !in v.cells && v.nextSession + 1 !in v.past && Inv(WithNewSession(v))
  {
    NewSlots(v);
    NewBooks(v);
    NewCells(v);
  }

  // ---- Admission ----

  /** The checks of `session/prompt`, in their order. */
  function Admission(v: View, id: nat, request: string, textBytes: nat): PromptReply {
    if |request| > MAX_REQUEST_ID_BYTES || textBytes > MAX_TEXT_BYTES then Rejected(LimitExceeded)
    else if id !in v.cells then Rejected(if 1 <= id <= v.nextSession then SessionClosed else UnknownSession)
    else
      var s := v.cells[id].s;
      if request != "" && request in s.requests then Replayed(s.requests[request])
      else if s.closed then Rejected(SessionClosed)
      else if s.suspended then Rejected(SessionSuspended)
      else if s.running then Rejected(TurnRunning)
      else if request != "" && |s.requests| >= MAX_REPLAY_REQUESTS then Rejected(ReplayFull)
      else if s.turn == MAX_UINT64 || s.eventSeq > MAX_UINT64 - 4 then Rejected(SequenceExhausted)
      else Accepted
  }

  /** A turn starts exactly when the session is open, idle, attached and has room. */
  lemma AdmissionExactly(v: View, id: nat, request: string, textBytes: nat)
    requires id in v.cells ==> v.cells[id].s.turn <= MAX_UINT64
    ensures Admission(v, id, request, textBytes).Accepted? <==>
            |request| <= MAX_REQUEST_ID_BYTES && textBytes <= MAX_TEXT_BYTES
            && id in v.cells && MayStart(v.cells[id].s, request)
  {
  }

  function Beginning(v: View, id: nat, request: string): View
    requires id in v.cells
  {
    v.(cells := v.cells[id := Begun(v.cells[id], request)])
  }

  /** An admitted prompt leaves the engine ready to emit its first event. */
  lemma BeginOk(v: View, id: nat, request: string)
    requires Inv(v) && id in v.cells && Admission(v, id, request, 0).Accepted?
    ensures CellOk(v.transport, v.cells[id]) && MayStart(v.cells[id].s, request)
    ensures Writing(Beginning(v, id, request), id) && Wrote(v, Beginning(v, id, request), id)
    ensures Ready(v.transport, Begun(v.cells[id], request))
  {
    hide Inv, Writing, CellOk, Wrote, Ready;
    Open(v, id);
    var c := v.cells[id];
    CountersFit(v.transport, c);
    AdmissionExactly(v, id, request, 0);
    BegunReady(v.transport, c, request);
    ReadyExact(v.transport, Begun(c, request));
    PutWriting(v, id, Begun(c, request));
    PutWrote(v, id, Begun(c, request));
    assert Put(v, id, Begun(c, request)) == Beginning(v, id, request);
  }

  lemma ReadyExact(transport: bool, c: Cell)
    requires Ready(transport, c)
    ensures Exact(c)
  {
  }

  lemma CountersFit(transport: bool, c: Cell)
    requires CellOk(transport, c)
    ensures c.s.turn <= MAX_UINT64
  {
  }

  /** Why a finished turn stopped. */
  function ReasonOf(s: Session, out: Outcome): StopReason {
    if s.cancelled || out.cancelError then Cancelled
    else if out.failed || out.textBytes > MAX_TEXT_BYTES then Failure
    else Completed
  }

  // ---- Session names ----

  function SessionName(n: nat): string { "session-" + Dec(n) }

  /** `issuedSession`: a canonical decimal suffix no larger than the counter. */
  predicate IssuedSession(id: string, next: nat) {
    HasPrefix(id, "session-")
    && var suffix := id[8..];
       suffix != "" && AllDigits(suffix)
       && 0 < Value(suffix) <= MAX_UINT64 && Value(suffix) <= next && Dec(Value(suffix)) == suffix
  }

  /** It recognises exactly the names handed out so far. */
  lemma IssuedExactly(id: string, next: nat)
    requires next <= MAX_UINT64
    ensures IssuedSession(id, next) <==> exists n :: 1 <= n <= next && id == SessionName(n)
  {
    if IssuedSession(id, next) {
      assert id == SessionName(Value(id[8..]));
    }
    if n :| 1 <= n <= next && id == SessionName(n) {
      assert id[8..] == Dec(n);
      DecValue(n);
    }
  }

  /** What the invariant promises about one open session, in a reader's terms. */
  lemma SessionGuarantees(v: View, id: nat)
    requires Inv(v) && id in v.cells
    ensures var c := v.cells[id];
            && c.t.accepted == Upto(c.s.deliveredSeq)
            && (v.transport && !c.s.suspended ==> c.s.deliveredSeq == c.s.eventSeq)
            && c.h.floor + |c.h.retained| == c.s.eventSeq == |c.t.log| && c.h.retained == c.t.log[c.h.floor..]
            && c.h.bytes == Bytes(c.h.retained) <= MAX_HISTORY_BYTES
            && |c.h.retained| <= MAX_HISTORY_EVENTS && v.historyBytes == Total(Sizes(v.cells)) <= MAX_ENGINE_HISTORY_BYTES
            && c.s.account.used == Min(MAX_UINT64, Sum(Amounts(c.t.log)))
            && NoDuplicates(c.t.prompts) && |c.s.requests| <= MAX_REPLAY_REQUESTS
            && Starts(c.t.log) == c.s.turn <= MAX_UINT64 && c.s.eventSeq <= MAX_UINT64
            && PhaseOf(c.t.log) == Some(if c.s.running then Opened else Idle) && Turned(c.t.log)
  {
    hide PhaseOf, Starts, Bytes, Amounts, Upto, Numbered, Turned;
    var c := v.cells[id];
    assert CellOk(v.transport, c);
    assert Amounts(c.t.log) + [] == Amounts(c.t.log);
    ChargeIsCappedSum(Amounts(c.t.log));
  }

  datatype RejectCode = LimitExceeded | SessionClosed | UnknownSession | SessionSuspended | TurnRunning | ReplayFull | SequenceExhausted

  datatype PromptReply = Replayed(reason: StopReason) | Rejected(code: RejectCode) | Accepted

  datatype FlushResult = Flushed | Expired | DeliveryRefused

  datatype TokenUsage = TokenUsage(input: nat, output: nat, cached: nat)

  const NoUsage := TokenUsage(0, 0, 0)

  /** What the provider returned for a turn. */
  datatype Outcome = Outcome(failed: bool, cancelError: bool, textBytes: nat, usage: TokenUsage)

  class Engine {
    const transport: bool
    var cells: map<nat, Cell>
    var historyBytes: nat
    var nextSession: nat
    var closed: bool
    ghost var past: map<nat, Trace>

    ghost function Now(): View
      reads this
    {
      View(transport, cells, historyBytes, nextSession, closed, past)
    }

    constructor (hasTransport: bool)
      ensures Inv(Now()) && Now() == View(hasTransport, map[], 0, 0, false, map[])
    {
      transport := hasTransport;
      cells, past := map[], map[];
      historyBytes, nextSession, closed := 0, 0, false;
    }

    /** Drops the oldest retained event of one session. */
    method EvictOldest(x: nat)
      requires x in cells && cells[x].h.retained != []
      requires cells[x].h.retained[0].size <= cells[x].h.bytes <= historyBytes
      modifies this`cells, this`historyBytes
      ensures Now() == EvictFrom(old(Now()), x)
    {
      var h := cells[x].h;
      var size := h.retained[0].size;
      historyBytes := historyBytes - size;
      cells := cells[x := cells[x].(h := History(h.retained[1..], h.bytes - size, h.floor + 1))];
    }

    /** The session that retains the most bytes, if any retains an event. */
    method LargestHolder() returns (chosen: Option<nat>)
      ensures chosen.None? ==> forall x | x in cells :: cells[x].h.retained == []
      ensures chosen.Some? ==> chosen.value in cells && cells[chosen.value].h.retained != []
      ensures chosen.Some? ==> forall x | x in cells && cells[x].h.retained != [] ::
                                 cells[x].h.bytes <= cells[chosen.value].h.bytes
    {
      var todo := cells.Keys;
      chosen := None;
      while todo != {}
        invariant todo <= cells.Keys
        invariant chosen.None? ==> forall x | x in cells && x !in todo :: cells[x].h.retained == []
        invariant chosen.Some? ==> chosen.value in cells && cells[chosen.value].h.retained != []
        invariant chosen.Some? ==> forall x | x in cells && x !in todo && cells[x].h.retained != [] ::
                                     cells[x].h.bytes <= cells[chosen.value].h.bytes
        decreases |todo|
      {
        var x :| x in todo;
        todo := todo - {x};
        if cells[x].h.retained != [] {
          if chosen.None? || cells[x].h.bytes > cells[chosen.value].h.bytes {
            chosen := Some(x);
          }
        }
      }
    }

    /** Reclaims one event from a largest holder; reports whether there was one. */
    method EvictLargest(ghost id: nat) returns (reclaimed: bool)
      requires Writing(Now(), id)
      modifies this`cells, this`historyBytes
      ensures Writing(Now(), id) && Trimmed(old(Now()), Now())
      ensures if reclaimed then historyBytes < old(historyBytes) else historyBytes == 0
    {
      var chosen := LargestHolder();
      if chosen.None? {
        NothingRetained(Now(), id);
        return false;
      }
      EvictKeepsWriting(Now(), id, chosen.value);
      EvictTrims(Now(), chosen.value);
      EvictOldest(chosen.value);
      return true;
    }

    /** Applies the caps of one session. */
    method EnforceSessionCaps(id: nat)
      requires Writing(Now(), id)
      modifies this`cells, this`historyBytes
      ensures Writing(Now(), id) && Trimmed(old(Now()), Now()) && WithinCaps(cells[id].h)
    {
      ghost var v := Now();
      while cells[id].h.retained != [] &&
            (|cells[id].h.retained| > MAX_HISTORY_EVENTS || cells[id].h.bytes > MAX_HISTORY_BYTES)
        invariant Writing(Now(), id) && Trimmed(v, Now())
        decreases |cells[id].h.retained|
      {
        ghost var w := Now();
        EvictKeepsWriting(w, id, id);
        EvictTrims(w, id);
        EvictOldest(id);
        TrimmedTransitive(v, w, Now());
      }
    }

    /** Applies the budget shared by all sessions. */
    method EnforceEngineBudget(ghost id: nat)
      requires Writing(Now(), id)
      modifies this`cells, this`historyBytes
      ensures Writing(Now(), id) && Trimmed(old(Now()), Now()) && historyBytes <= MAX_ENGINE_HISTORY_BYTES
    {
      ghost var v := Now();
      var more := true;
      while historyBytes > MAX_ENGINE_HISTORY_BYTES && more
        invariant Writing(Now(), id) && Trimmed(v, Now())
        invariant !more ==> historyBytes == 0
        decreases historyBytes, more
      {
        ghost var w := Now();
        more := EvictLargest(id);
        TrimmedTransitive(v, w, Now());
      }
    }

    /** Appends the next event to the history, before any eviction. */
    method AppendEvent(id: nat, kind: Kind, size: nat)
      requires id in cells && cells[id].h.bytes <= historyBytes
      modifies this`cells, this`historyBytes
      ensures Now() == Put(old(Now()), id, AppendedCell(old(cells[id]), kind, size))
    {
      var c := cells[id];
      var s := c.s.(eventSeq := c.s.eventSeq + 1);
      var e := Event(s.eventSeq, s.turn, kind, size);
      historyBytes := historyBytes + size;
      cells := cells[id := Cell(s, c.h.(retained := c.h.retained + [e], bytes := c.h.bytes + size),
                                c.t.(log := c.t.log + [e]))];
    }

    /** Brings every history back under its cap. */
    method EnforceCaps(id: nat)
      requires Writing(Now(), id)
      modifies this`cells, this`historyBytes
      ensures Writing(Now(), id) && Trimmed(old(Now()), Now())
      ensures WithinCaps(cells[id].h) && historyBytes <= MAX_ENGINE_HISTORY_BYTES
    {
      ghost var v := Now();
      EnforceSessionCaps(id);
      ghost var w := Now();
      EnforceEngineBudget(id);
      TrimmedTransitive(v, w, Now());
      assert TrimmedCell(w.cells[id], cells[id]);
    }

    /** `onEvent`: hands one event to the transport. What the transport takes is on record, in the order it was handed over. */
    method OnEvent(id: nat, e: Event, accept: bool) returns (taken: bool)
      requires id in cells
      modifies this`cells
      ensures taken == accept
      ensures Now() == old(Now()).(cells := old(cells)[id := if accept then Taken(old(cells[id]), e) else old(cells[id])])
    {
      taken := accept;
      var c := cells[id];
      cells := cells[id := if taken then c.(t := c.t.(accepted := c.t.accepted + [e.seqNo])) else c];
    }

    /** Offers the newest event to the transport. */
    method Offer(id: nat, e: Event, accept: bool)
      requires id in cells && cells[id].h.bytes <= historyBytes && e.seqNo == cells[id].s.eventSeq
      modifies this`cells
      ensures Now() == Put(old(Now()), id, AnsweredCell(transport, old(cells[id]), accept))
    {
      if transport && !cells[id].s.suspended {
        var taken := OnEvent(id, e, accept);
        var c := cells[id];
        cells := cells[id := c.(s := if taken then c.s.(deliveredSeq := c.s.eventSeq) else c.s.(suspended := true))];
      }
    }

    method AppendAndEvict(id: nat, kind: Kind, size: nat)
      requires Writing(Now(), id) && size > 0
      modifies this`cells, this`historyBytes
      ensures Writing(Now(), id) && Wrote(old(Now()), Now(), id)
      ensures WithinCaps(cells[id].h) && historyBytes <= MAX_ENGINE_HISTORY_BYTES
      ensures SameButHistory(cells[id], AppendedCell(old(cells[id]), kind, size))
    {
      ghost var v := Now();
      AppendedExact(v.cells[id], kind, size);
      PutWriting(v, id, AppendedCell(v.cells[id], kind, size));
      PutWrote(v, id, AppendedCell(v.cells[id], kind, size));
      AppendEvent(id, kind, size);
      ghost var w := Now();
      EnforceCaps(id);
      assert TrimmedCell(w.cells[id], cells[id]);
      TrimmedWrote(v, w, Now(), id);
    }

    /**
     * Emits the next event of a session. `accept` is the transport's answer
     * if it is asked; a refusal suspends the session and keeps the event.
     */
    method Emit(id: nat, kind: Kind, size: nat, accept: bool)
      requires Writing(Now(), id) && Ready(transport, cells[id]) && size > 0
      modifies this`cells, this`historyBytes
      ensures id in cells && Writing(Now(), id) && Ready(transport, cells[id]) && Wrote(old(Now()), Now(), id)
      ensures historyBytes <= MAX_ENGINE_HISTORY_BYTES
      ensures SameButHistory(cells[id], EmittedCell(transport, old(cells[id]), kind, size, accept))
    {
      hide Wrote, OthersOk, Slots, Books, Numbered, Upto, Bytes;
      ghost var v := Now();
      AppendAndEvict(id, kind, size);
      ghost var w := Now();
      ghost var answered := AnsweredCell(transport, w.cells[id], accept);
      AnsweredDelivers(transport, v.cells[id], kind, size, w.cells[id], accept);
      PutWriting(w, id, answered);
      PutWrote(w, id, answered);
      Offer(id, Event(cells[id].s.eventSeq, cells[id].s.turn, kind, size), accept);
      WroteTransitive(v, w, Now(), id);
    }

    method Allocate() returns (id: nat)
      modifies this`cells, this`nextSession
      ensures id == nextSession && Now() == WithNewSession(old(Now()))
    {
      nextSession := nextSession + 1;
      id := nextSession;
      cells := cells[id := FreshCell];
    }

    method NewSession() returns (r: Option<nat>)
      requires Inv(Now())
      modifies this`cells, this`nextSession
      ensures Inv(Now())
      ensures r.Some? <==> !closed && |old(cells)| < MAX_SESSIONS && old(nextSession) < MAX_UINT64
      ensures r.Some? ==> r == Some(nextSession) && nextSession !in old(cells) && nextSession !in past
      ensures Now() == if r.Some? then WithNewSession(old(Now())) else old(Now())
    {
      if closed || |cells| >= MAX_SESSIONS || nextSession == MAX_UINT64 {
        return None;
      }
      NewInv(Now());
      var id := Allocate();
      return Some(id);
    }

    method ReportChunk(id: nat, ghost owed: seq<nat>, size: nat, accept: bool)
      requires Turning(Now(), id, Opened, owed) && size > 0
      modifies this`cells, this`historyBytes
      ensures Turning(Now(), id, Chunked, owed) && Wrote(old(Now()), Now(), id)
      ensures SameRequest(old(cells[id]), cells[id])
    {
      ghost var c := cells[id];
      ChunkEmitted(transport, c, owed, size, accept);
      EmittedReplay(transport, c, Chunk, size, accept);
      Emit(id, Chunk, size, accept);
      UnderWayFramed(cells[id], EmittedCell(transport, c, Chunk, size, accept), Chunked, owed);
    }

    method ReportUsage(id: nat, ghost p: Phase, amount: nat, size: nat, accept: bool)
      requires Turning(Now(), id, p, [amount]) && (p.Opened? || p.Chunked?) && size > 0
      modifies this`cells, this`historyBytes
      ensures Turning(Now(), id, Reported, []) && Wrote(old(Now()), Now(), id)
      ensures SameRequest(old(cells[id]), cells[id])
    {
      ghost var c := cells[id];
      UsageEmitted(transport, c, p, amount, size, accept);
      EmittedReplay(transport, c, Usage(amount), size, accept);
      Emit(id, Usage(amount), size, accept);
      UnderWayFramed(cells[id], EmittedCell(transport, c, Usage(amount), size, accept), Reported, []);
    }

    /** Overwrites one session's control state and trace. */
    method Store(id: nat, c: Cell)
      requires id in cells && c.h == cells[id].h
      modifies this`cells
      ensures Now() == old(Now()).(cells := old(cells)[id := c])
    {
      cells := cells[id := c];
    }

    method EmitTerminal(id: nat, ghost p: Phase, kind: Kind, size: nat, accept: bool, ghost reason: StopReason)
      requires Turning(Now(), id, p, []) && (kind.Done? || kind.Failed?) && size > 0
      modifies this`cells, this`historyBytes
      ensures Writing(Now(), id) && historyBytes <= MAX_ENGINE_HISTORY_BYTES
      ensures CellOk(transport, Ended(cells[id], reason)) && Wrote(old(Now()), Now(), id)
      ensures SameRequest(old(cells[id]), cells[id])
    {
      ghost var c := cells[id];
      ghost var e := EmittedCell(transport, c, kind, size, accept);
      TerminalEmitted(transport, c, p, kind, size, accept, reason);
      EmittedReplay(transport, c, kind, size, accept);
      EndedReplay(e, reason);
      Emit(id, kind, size, accept);
      EndedCellOk(transport, e, cells[id], reason);
    }

    /** Leaves the running state and remembers the outcome of an identified request. */
    method Conclude(id: nat, reason: StopReason)
      requires id in cells
      modifies this`cells
      ensures Now() == old(Now()).(cells := old(cells)[id := Ended(old(cells[id]), reason)])
    {
      var c := cells[id];
      var s := c.s.(running := false);
      if c.t.current != "" {
        s := s.(requests := s.requests[c.t.current := reason]);
      }
      cells := cells[id := c.(s := s)];
    }

    /** Ends a session's turn with its terminal event. */
    method EndTurn(id: nat, ghost p: Phase, kind: Kind, size: nat, accept: bool, reason: StopReason)
      requires Turning(Now(), id, p, []) && (kind.Done? || kind.Failed?) && size > 0
      modifies this`cells, this`historyBytes
      ensures Inv(Now()) && Wrote(old(Now()), Now(), id)
      ensures id in cells && !cells[id].s.running && SameRequest(old(cells[id]), cells[id])
      ensures Remembered(cells[id].s, old(cells[id].t.current), reason)
    {
      hide Turning, Inv, CellOk, Wrote, Writing;
      ghost var v := Now();
      EmitTerminal(id, p, kind, size, accept, reason);
      ghost var w := Now();
      StoreInv(w, id, Ended(cells[id], reason));
      PutWrote(w, id, Ended(cells[id], reason));
      WroteTransitive(v, w, Put(w, id, Ended(cells[id], reason)), id);
      Conclude(id, reason);
    }

    /** Marks the session running and counts the turn. */
    method BeginTurn(id: nat, request: string)
      requires id in cells
      modifies this`cells
      ensures Now() == old(Now()).(cells := old(cells)[id := Begun(old(cells[id]), request)])
    {
      var c := cells[id];
      var s := c.s.(running := true, cancelled := false);
      s := s.(turn := s.turn + 1);
      cells := cells[id := Cell(s, c.h, Trace(c.t.log, c.t.accepted,
                                              if request == "" then c.t.prompts else c.t.prompts + [request],
                                              request))];
    }

    /**
     * The part of `session/prompt` before the provider runs. A remembered
     * request is answered without a turn; an accepted one emits its first event.
     */
    method PromptStart(id: nat, request: string, textBytes: nat, size: nat, accept: bool) returns (r: PromptReply)
      requires Inv(Now()) && size > 0
      modifies this`cells, this`historyBytes
      ensures Inv(Now()) && r == Admission(old(Now()), id, request, textBytes)
      ensures if r.Accepted? then Wrote(old(Now()), Now(), id) else Now() == old(Now())
      ensures r.Accepted? ==> id in cells && cells[id].s.running && cells[id].t.current == request
                              && cells[id].t.prompts == old(cells[id].t.prompts) + (if request == "" then [] else [request])
    {
      r := Admit(id, request, textBytes);
      if r.Accepted? {
        StartTurn(id, request, size, accept);
      }
    }

    /** The admission checks of a prompt. */
    method Admit(id: nat, request: string, textBytes: nat) returns (r: PromptReply)
      ensures r == Admission(Now(), id, request, textBytes)
    {
      if |request| > MAX_REQUEST_ID_BYTES || textBytes > MAX_TEXT_BYTES {
        return Rejected(LimitExceeded);
      }
      if id !in cells {
        return Rejected(if 1 <= id <= nextSession then SessionClosed else UnknownSession);
      }
      var s := cells[id].s;
      if request != "" && request in s.requests {
        return Replayed(s.requests[request]);
      }
      if s.closed {
        return Rejected(SessionClosed);
      }
      if s.suspended {
        return Rejected(SessionSuspended);
      }
      if s.running {
        return Rejected(TurnRunning);
      }
      if request != "" && |s.requests| >= MAX_REPLAY_REQUESTS {
        return Rejected(ReplayFull);
      }
      if s.turn == MAX_UINT64 || s.eventSeq > MAX_UINT64 - 4 {
        return Rejected(SequenceExhausted);
      }
      return Accepted;
    }

    method StartTurn(id: nat, request: string, size: nat, accept: bool)
      requires Inv(Now()) && id in cells && size > 0
      requires Admission(Now(), id, request, 0).Accepted?
      modifies this`cells, this`historyBytes
      ensures Inv(Now()) && Wrote(old(Now()), Now(), id)
      ensures id in cells && cells[id].s.running && cells[id].t.current == request
      ensures cells[id].t.prompts == old(cells[id].t.prompts) + (if request == "" then [] else [request])
    {
      hide Inv, Writing, Ready, CellOk, Wrote, MayStart, Admission;
      ghost var v := Now();
      ghost var c := cells[id];
      BeginOk(v, id, request);
      BeginTurn(id, request);
      ghost var w := Now();
      Emit(id, Started, size, accept);
      StartedOk(transport, c, request, size, accept, cells[id]);
      Close(Now(), id);
      WroteTransitive(v, w, Now(), id);
    }

    /** Posts the reported usage to the session's ledger. */
    method PostUsage(id: nat, amount: nat) returns (ok: bool)
      requires Turning(Now(), id, Opened, [])
      modifies this`cells
      ensures ok && Turning(Now(), id, Opened, [amount]) && Wrote(old(Now()), Now(), id)
      ensures SameRequest(old(cells[id]), cells[id])
    {
      PostTurning(Now(), id, amount);
      var c := cells[id];
      var (a, result) := Post(c.s.account, c.s.turn, c.s.turn, amount);
      PutWrote(Now(), id, c.(s := c.s.(account := a)));
      hide Turning, Wrote;
      Store(id, c.(s := c.s.(account := a)));
      return result.Applied? || result.Duplicate?;
    }

    /** Returns the session's share of the budget and forgets it. */
    method ReleaseSession(id: nat)
      requires id in cells && cells[id].h.bytes <= historyBytes
      modifies this`cells, this`historyBytes, this`past
      ensures Now() == Released(old(Now()), id)
    {
      past := past[id := cells[id].t];
      historyBytes := historyBytes - cells[id].h.bytes;
      cells := cells - {id};
    }

    /**
     * Writes out a finished provider call: usage, text, terminal event and the
     * outcome a repeated request will be answered with.
     */
    method PromptFinish(id: nat, out: Outcome, sizes: (nat, nat, nat), accepts: (bool, bool, bool)) returns (reason: StopReason)
      requires Inv(Now()) && id in cells && cells[id].s.running
      requires sizes.0 > 0 && sizes.1 > 0 && sizes.2 > 0
      requires out.usage.input <= MAX_UINT64
      modifies this`cells, this`historyBytes, this`past
      ensures Inv(Now()) && reason == ReasonOf(old(cells[id].s), out)
      ensures id in cells <==> !old(cells[id].s.closed)
      ensures id in cells ==> !cells[id].s.running && Wrote(old(Now()), Now(), id)
                              && Remembered(cells[id].s, old(cells[id].t.current), reason)
    {
      hide Inv, Turning, Wrote;
      ghost var v := Now();
      reason := ReasonOf(cells[id].s, out);
      EnterTurn(Now(), id);
      ghost var p := ReportUsageAndText(id, out, reason, sizes, accepts);
      ghost var w := Now();
      EndTurn(id, p, if reason == Failure then Failed else Done, sizes.2, accepts.2, reason);
      WroteTransitive(v, w, Now(), id);
      if cells[id].s.closed {
        ReleaseInv(Now(), id);
        ReleaseSession(id);
      }
    }

    /** The events between a turn's first and last one. */
    method ReportUsageAndText(id: nat, out: Outcome, reason: StopReason, sizes: (nat, nat, nat), accepts: (bool, bool, bool))
      returns (ghost p: Phase)
      requires Turning(Now(), id, Opened, []) && sizes.0 > 0 && sizes.1 > 0
      requires out.usage.input <= MAX_UINT64
      modifies this`cells, this`historyBytes
      ensures Turning(Now(), id, p, []) && Wrote(old(Now()), Now(), id) && SameRequest(old(cells[id]), cells[id])
    {
      hide Inv, Turning, Wrote;
      p := Opened;
      ghost var v := Now();
      ghost var owed: seq<nat> := [];
      WroteReflexive(v, id);
      var amount := SaturatingAdd(out.usage.input, out.usage.output);
      if out.usage != NoUsage {
        var ok := PostUsage(id, amount);
        owed := [amount];
      }
      ghost var w := Now();
      if reason == Completed {
        ReportChunk(id, owed, sizes.0, accepts.0);
        p := Chunked;
        WroteTransitive(v, w, Now(), id);
      }
      w := Now();
      if out.usage != NoUsage {
        ReportUsage(id, p, amount, sizes.1, accepts.1);
        p := Reported;
        WroteTransitive(v, w, Now(), id);
      }
    }

    method Suspend(id: nat)
      requires Inv(Now()) && id in cells
      modifies this`cells
      ensures Inv(Now()) && Now() == old(Now()).(cells := old(cells)[id := old(cells[id]).(s := old(cells[id].s).(suspended := true))])
    {
      Open(Now(), id);
      SuspendedOk(transport, cells[id]);
      TouchInv(Now(), id, cells[id].(s := cells[id].s.(suspended := true)));
      hide Inv, CellOk, Writing;
      Store(id, cells[id].(s := cells[id].s.(suspended := true)));
    }

    /** Moves the delivery mark of one session. */
    method Mark(id: nat, upto: nat)
      requires id in cells
      modifies this`cells
      ensures Now() == old(Now()).(cells := old(cells)[id := old(cells[id]).(s := old(cells[id].s).(deliveredSeq := upto))])
    {
      var c := cells[id];
      cells := cells[id := c.(s := c.s.(deliveredSeq := upto))];
    }

    /**
     * Replays the events retained past the last delivered one, until the transport
     * refuses one. `accept` is the transport's answer for each sequence number.
     */
    method FlushSession(id: nat, accept: nat -> bool) returns (r: FlushResult)
      requires id in cells && Behind(cells[id])
      modifies this`cells
      ensures id in cells
      ensures var c, upto := old(cells[id]), cells[id].s.deliveredSeq;
              && Now() == old(Now()).(cells := old(cells)[id := ReplayedTo(c, upto)])
              && c.s.deliveredSeq <= upto <= c.s.eventSeq
              && (r.Expired? <==> transport && c.s.deliveredSeq != c.s.eventSeq && c.s.deliveredSeq < c.h.floor)
              && (r.Flushed? && transport ==> upto == c.s.eventSeq)
              && (r.Expired? || !transport ==> upto == c.s.deliveredSeq)
              && (!transport ==> r.Flushed?)
              && (r.DeliveryRefused? ==> upto < c.s.eventSeq && !accept(upto + 1))
              && forall n | c.s.deliveredSeq < n <= upto :: accept(n)
    {
      hide Exact, Upto;
      var c := cells[id];
      ReplayStarts(c);
      assert cells[id := c] == cells;
      if !transport || c.s.deliveredSeq == c.s.eventSeq {
        return Flushed;
      }
      if c.s.deliveredSeq < c.h.floor {
        return Expired;
      }
      ghost var v := Now();
      ghost var upto := c.s.deliveredSeq;
      FloorFits(c);
      for i := 0 to |c.h.retained|
        invariant upto == if c.h.floor + i <= c.s.deliveredSeq then c.s.deliveredSeq else c.h.floor + i
        invariant Now() == v.(cells := v.cells[id := ReplayedTo(c, upto)])
        invariant forall n | c.s.deliveredSeq < n <= upto :: accept(n)
      {
        RetainedNumber(c, i);
        var event := c.h.retained[i];
        if event.seqNo > cells[id].s.deliveredSeq {
          ReplayAdvances(c, upto, event);
          var taken := OnEvent(id, event, accept(event.seqNo));
          if !taken {
            assert Now() == v.(cells := v.cells[id := ReplayedTo(c, upto)]);
            return DeliveryRefused;
          }
          Mark(id, event.seqNo);
          upto := event.seqNo;
        }
      }
      return Flushed;
    }

    /** Resuming replays what the transport missed, or says why it cannot. */
    method Resume(id: nat, accept: nat -> bool) returns (r: FlushResult)
      requires Inv(Now()) && id in cells
      modifies this`cells
      ensures Inv(Now()) && id in cells
      ensures cells[id].s.suspended <==> !r.Flushed?
      ensures r.Expired? ==> cells[id].t == old(cells[id].t) && cells[id].s.deliveredSeq < cells[id].h.floor
      ensures transport && r.Flushed? ==> cells[id].t.accepted == Upto(cells[id].s.eventSeq)
      ensures old(cells[id].s.deliveredSeq) <= cells[id].s.deliveredSeq
      ensures old(cells[id].t.accepted) <= cells[id].t.accepted
      ensures forall n | old(cells[id].s.deliveredSeq) < n <= cells[id].s.deliveredSeq :: accept(n)
    {
      hide Inv, CellOk, Writing, Behind, Upto;
      ghost var v := Now();
      Open(v, id);
      BehindOf(transport, cells[id]);
      r := Replay(id, accept);
      ResumedInv(v, id, cells[id].s.deliveredSeq, !r.Flushed?);
    }

    /** Attaches the session, replays, and suspends it again on any failure. */
    method Replay(id: nat, accept: nat -> bool) returns (r: FlushResult)
      requires id in cells && Behind(cells[id].(s := cells[id].s.(suspended := false)))
      modifies this`cells
      ensures id in cells && Now() == old(Now()).(cells := cells)
      ensures var c, upto := old(cells[id]), cells[id].s.deliveredSeq;
              && cells == old(cells)[id := ResumedTo(c, upto, !r.Flushed?)]
              && c.s.deliveredSeq <= upto <= c.s.eventSeq
              && (r.Expired? ==> upto == c.s.deliveredSeq < c.h.floor)
              && (r.Flushed? && transport ==> upto == c.s.eventSeq)
              && (!transport ==> r.Flushed? && upto == c.s.deliveredSeq)
              && forall n | c.s.deliveredSeq < n <= upto :: accept(n)
    {
      hide Behind, Upto, ReplayedTo, ResumedTo;
      ghost var m, c := cells, cells[id];
      Attach(id, true);
      r := FlushSession(id, accept);
      ghost var upto := cells[id].s.deliveredSeq;
      ResumedIs(c, upto, !r.Flushed?);
      if !r.Flushed? {
        Attach(id, false);
      }
      PutTwice(m, id, c.(s := c.s.(suspended := false)), ReplayedTo(c.(s := c.s.(suspended := false)), upto));
      PutTwice(m, id, ReplayedTo(c.(s := c.s.(suspended := false)), upto), ResumedTo(c, upto, !r.Flushed?));
    }

    method Attach(id: nat, attached: bool)
      requires id in cells
      modifies this`cells
      ensures Now() == old(Now()).(cells := old(cells)[id := old(cells[id]).(s := old(cells[id].s).(suspended := !attached))])
    {
      var c := cells[id];
      cells := cells[id := c.(s := c.s.(suspended := !attached))];
    }

    /** `session/abort` and, with `close`, `session/close`. */
    method Stop(id: nat, close: bool)
      requires Inv(Now()) && id in cells
      modifies this`cells, this`historyBytes, this`past
      ensures Inv(Now())
      ensures id !in cells <==> (old(cells[id].s.closed) || close) && !old(cells[id].s.running)
      ensures old(cells.Keys) - {id} <= cells.Keys <= old(cells.Keys)
      ensures forall x | x in cells && x != id :: cells[x] == old(cells[x])
      ensures id in cells ==> cells[id] == Stopped(old(cells[id]), close)
    {
      hide Inv, CellOk, Writing;
      StopInv(Now(), id, close);
      var c := cells[id];
      if c.s.running {
        c := c.(s := c.s.(cancelled := true));
      }
      if close {
        c := c.(s := c.s.(closed := true));
      }
      Store(id, c);
      if c.s.closed && !c.s.running {
        ReleaseInv(Now(), id);
        ReleaseSession(id);
      }
    }

    /** Closing the engine stops every session. */
    method CloseEngine()
      requires Inv(Now())
      modifies this`cells, this`historyBytes, this`past, this`closed
      ensures Inv(Now()) && closed
      ensures forall id | id in cells :: id in old(cells) && old(cells[id].s.running) && cells[id].s.closed
    {
      hide Inv;
      ClosedInv(Now());
      closed := true;
      var todo := cells.Keys;
      while todo != {}
        invariant Inv(Now()) && closed && todo <= cells.Keys && cells.Keys <= old(cells).Keys
        invariant forall id | id in cells && id in todo :: cells[id] == old(cells[id])
        invariant forall id | id in cells && id !in todo :: old(cells[id].s.running) && cells[id].s.closed
        decreases |todo|
      {
        var id :| id in todo;
        Stop(id, true);
        todo := todo - {id};
      }
    }

    /** The events after `seqNo`: the exact suffix of the log, or expired. */
    method EventsSince(id: nat, seqNo: nat) returns (r: Option<seq<Event>>)
      requires Inv(Now())
      ensures r.Some? <==> id in cells && seqNo >= cells[id].h.floor
      ensures r.Some? ==> r.value == if seqNo <= |cells[id].t.log| then cells[id].t.log[seqNo..] else []
    {
      hide Inv, Writing, CellOk, Exact;
      if id !in cells || seqNo < cells[id].h.floor {
        return None;
      }
      OpenExact(Now(), id);
      RetainedSuffix(cells[id], seqNo);
      var events := TailAfter(cells[id], seqNo);
      return Some(events);
    }
  }

  /** Everything a peer can do, and what the environment answers. */
  datatype Op =
    | New
    | Prompt(id: nat, request: string, textBytes: nat, size: nat, accept: bool)
    | Return(id: nat, out: Outcome, sizes: (nat, nat, nat), accepts: (bool, bool, bool))
    | SuspendOp(id: nat)
    | ResumeOp(id: nat, answers: nat -> bool)
    | StopOp(id: nat, close: bool)
    | CloseOp

  /** Operations the environment can produce: event encodings are never empty. */
  predicate Feasible(op: Op) {
    match op
    case Prompt(_, _, _, size, _) => size > 0
    case Return(_, out, sizes, _) => sizes.0 > 0 && sizes.1 > 0 && sizes.2 > 0 && out.usage.input <= MAX_UINT64
    case _ => true
  }

  /** One operation, skipped when it names no open session or no running turn. */
  method Perform(e: Engine, op: Op)
    requires Inv(e.Now()) && Feasible(op)
    modifies e
    ensures Inv(e.Now())
  {
    hide Inv, Wrote;
    match op
    case New =>
      var _ := e.NewSession();
    case Prompt(id, request, textBytes, size, accept) =>
      var _ := e.PromptStart(id, request, textBytes, size, accept);
    case Return(id, out, sizes, accepts) =>
      if id in e.cells && e.cells[id].s.running {
        var _ := e.PromptFinish(id, out, sizes, accepts);
      }
    case SuspendOp(id) =>
      if id in e.cells {
        e.Suspend(id);
      }
    case ResumeOp(id, answers) =>
      if id in e.cells {
        var _ := e.Resume(id, answers);
      }
    case StopOp(id, close) =>
      if id in e.cells {
        e.Stop(id, close);
      }
    case CloseOp =>
      e.CloseEngine();
  }

  /** Every interleaving from a new engine ends in a state satisfying the invariant. */
  method Interleave(transport: bool, ops: seq<Op>) returns (e: Engine)
    requires forall i | 0 <= i < |ops| :: Feasible(ops[i])
    ensures Inv(e.Now()) && e.transport == transport
  {
    hide Inv;
    e := new Engine(transport);
    for i := 0 to |ops|
      invariant Inv(e.Now()) && fresh(e)
    {
      Perform(e, ops[i]);
    }
  }

  /** The filter loop over retained events. */
  method TailAfter(c: Cell, seqNo: nat) returns (events: seq<Event>)
    requires Exact(c) && c.h.floor <= seqNo
    ensures events == if seqNo - c.h.floor <= |c.h.retained| then c.h.retained[seqNo - c.h.floor..] else []
  {
    hide Exact;
    events := [];
    var skip := seqNo - c.h.floor;
    for i := 0 to |c.h.retained|
      invariant events == if skip <= i then c.h.retained[skip..i] else []
    {
      RetainedNumber(c, i);
      if c.h.retained[i].seqNo > seqNo {
        events := events + [c.h.retained[i]];
      }
    }
  }
}
