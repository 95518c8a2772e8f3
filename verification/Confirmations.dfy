/**
 * Human confirmation of tainted exports: a blocked export is escalated to a
 * request, an approver settles it once, and an approved request releases its
 * own text once before it expires.
 */
module Confirmations {
  import opened Wrappers

  datatype AskStatus = Waiting | Approved | Denied | Consumed | Lapsed

  datatype Ask = Ask(application: string, text: string, created: int, expires: int, status: AskStatus, settledBy: string)

  type Asks = map<string, Ask>

  /** Five minutes in nanoseconds. */
  const TTL := 300_000_000_000
  const MAX_WAITING := 64

  function Waitings(asks: Asks): set<string> { set id | id in asks && asks[id].status == Waiting }

  /** The first half of `sweepConfirmationsLocked`: stale requests lapse. */
  function Lapse(asks: Asks, now: int): Asks {
    map id | id in asks ::
      if asks[id].status == Waiting && now > asks[id].expires then asks[id].(status := Lapsed) else asks[id]
  }

  /** The second half: `drop` is a choice of oldest settled requests past the bound. */
  predicate OldestSettled(asks: Asks, drop: set<string>) {
    && drop <= asks.Keys - Waitings(asks)
    && (if |asks| <= MAX_WAITING then drop == {}
        else |drop| == |asks| - MAX_WAITING || (|drop| < |asks| - MAX_WAITING && drop == asks.Keys - Waitings(asks)))
    && forall d, k | d in drop && k in asks.Keys - Waitings(asks) - drop :: asks[d].created <= asks[k].created
  }

  function Request(application: string, text: string, now: int): Ask {
    Ask(application, text, now, now + TTL, Waiting, "")
  }

  datatype AskError = Missing | AlreadyUsed | Unapproved | Settled | TooLate | WrongText

  /** `SettleConfirmation`: the status a request takes, or why it cannot be settled. */
  function Settle(asks: Asks, id: string, approve: bool, now: int, settler: string): Result<Ask, AskError> {
    if id !in asks then Err(Missing)
    else if asks[id].status != Waiting then Err(Settled)
    else if now > asks[id].expires then Err(TooLate)
    else Ok(asks[id].(status := if approve then Approved else Denied, settledBy := settler))
  }

  /** `exportViaRequestLocked`: whether a request releases `text` now. */
  function Redeem(asks: Asks, id: string, application: string, text: string, now: int): Result<Ask, AskError> {
    if id !in asks || asks[id].application != application then Err(Missing)
    else if asks[id].status == Consumed then Err(AlreadyUsed)
    else if asks[id].status != Approved then Err(Unapproved)
    else if now > asks[id].expires then Err(TooLate)
    else if text != asks[id].text then Err(WrongText)
    else Ok(asks[id].(status := Consumed))
  }

  // ---- Bounds ----

  ghost predicate AsksOk(asks: Asks) { |Waitings(asks)| <= MAX_WAITING && |asks| <= MAX_WAITING + 1 }

  lemma Within<T>(a: set<T>, b: set<T>)
    requires a <= b
    ensures |a| <= |b|
  {
    assert b == a + (b - a);
  }

  lemma SizeIsKeys(asks: Asks)
    ensures |asks| == |asks.Keys|
  {
  }

  lemma LapseShrinks(asks: Asks, now: int)
    ensures Waitings(Lapse(asks, now)) <= Waitings(asks) && Lapse(asks, now).Keys == asks.Keys
    ensures |Lapse(asks, now)| == |asks| && |Waitings(Lapse(asks, now))| <= |Waitings(asks)|
  {
    Within(Waitings(Lapse(asks, now)), Waitings(asks));
    SizeIsKeys(asks);
    SizeIsKeys(Lapse(asks, now));
  }

  lemma DropShrinks(asks: Asks, drop: set<string>)
    requires AsksOk(asks) && OldestSettled(asks, drop)
    ensures Waitings(asks - drop) == Waitings(asks) && |asks - drop| <= MAX_WAITING
  {
    var settled := asks.Keys - Waitings(asks);
    SizeIsKeys(asks);
    SizeIsKeys(asks - drop);
    assert (asks - drop).Keys == asks.Keys - drop;
    assert asks.Keys == (asks.Keys - drop) + drop;
    assert |asks.Keys - drop| == |asks.Keys| - |drop|;
    if drop == settled {
      assert asks.Keys - drop == Waitings(asks);
    }
  }

  lemma AddKeeps(asks: Asks, id: string, ask: Ask)
    requires |asks| <= MAX_WAITING && |Waitings(asks)| < MAX_WAITING
    ensures AsksOk(asks[id := ask])
  {
    var more := asks[id := ask];
    SizeIsKeys(asks);
    SizeIsKeys(more);
    Within(more.Keys, asks.Keys + {id});
    Within(Waitings(more), Waitings(asks) + {id});
  }

  /** Sweeping leaves room for one more request whenever fewer than the bound still wait. */
  lemma EscalateKeeps(asks: Asks, now: int, drop: set<string>, id: string, ask: Ask)
    requires AsksOk(asks) && OldestSettled(Lapse(asks, now), drop)
    ensures var swept := Lapse(asks, now) - drop;
            AsksOk(swept) && (|Waitings(swept)| < MAX_WAITING ==> AsksOk(swept[id := ask]))
  {
    hide OldestSettled, Lapse, Waitings;
    LapseShrinks(asks, now);
    DropShrinks(Lapse(asks, now), drop);
    var swept := Lapse(asks, now) - drop;
    if |Waitings(swept)| < MAX_WAITING {
      AddKeeps(swept, id, ask);
    }
  }

  /** Settling, lapsing or using a request frees a place and adds none. */
  lemma UpdateKeeps(asks: Asks, id: string, ask: Ask)
    requires AsksOk(asks) && id in asks && ask.status != Waiting
    ensures AsksOk(asks[id := ask])
  {
    SizeIsKeys(asks);
    SizeIsKeys(asks[id := ask]);
    assert asks[id := ask].Keys == asks.Keys;
    Within(Waitings(asks[id := ask]), Waitings(asks));
  }

  // ---- Lifecycle over whole runs ----

  datatype Release = Release(id: string, text: string, time: int)

  /** What has been committed so far: requests as escalated, approvals, and texts let out. */
  datatype History = History(escalated: map<string, Ask>, approved: map<string, int>, released: seq<Release>)

  /** A stored request is the one that was escalated, in a status its history justifies. */
  ghost predicate Justified(h: History, id: string, ask: Ask) {
    && id in h.escalated
    && ask == h.escalated[id].(status := ask.status, settledBy := ask.settledBy)
    && (ask.status == Approved || ask.status == Consumed ==> id in h.approved)
    && (ask.status != Consumed ==> forall i | 0 <= i < |h.released| :: h.released[i].id != id)
  }

  /** A release was approved, in time, of the escalated text. */
  ghost predicate Earned(h: History, r: Release) {
    && r.id in h.escalated && r.id in h.approved
    && r.text == h.escalated[r.id].text && r.time <= h.escalated[r.id].expires
    && h.approved[r.id] <= h.escalated[r.id].expires
  }

  ghost predicate ReleasesOk(h: History) {
    && (forall i | 0 <= i < |h.released| :: Earned(h, h.released[i]))
    && forall i, j | 0 <= i < j < |h.released| :: h.released[i].id != h.released[j].id
  }

  ghost predicate GateOk(h: History, asks: Asks) {
    && ReleasesOk(h)
    && forall id {:trigger Justified(h, id, asks[id])} | id in asks :: Justified(h, id, asks[id])
  }

  lemma SweepGate(h: History, asks: Asks, now: int, drop: set<string>)
    requires GateOk(h, asks)
    ensures GateOk(h, Lapse(asks, now) - drop)
  {
    var swept := Lapse(asks, now) - drop;
    forall id | id in swept
      ensures Justified(h, id, swept[id])
    {
      assert Justified(h, id, asks[id]);
    }
  }

  /** Request ids are fresh. */
  lemma EscalateGate(h: History, asks: Asks, id: string, ask: Ask)
    requires GateOk(h, asks) && id !in h.escalated && ask.status == Waiting
    ensures GateOk(h.(escalated := h.escalated[id := ask]), asks[id := ask])
  {
    var h2, more := h.(escalated := h.escalated[id := ask]), asks[id := ask];
    forall i | 0 <= i < |h2.released|
      ensures Earned(h2, h2.released[i]) && h2.released[i].id != id
    {
      assert Earned(h, h.released[i]);
    }
    forall x | x in more
      ensures Justified(h2, x, more[x])
    {
      assert x != id ==> Justified(h, x, asks[x]);
    }
  }

  lemma SettleGate(h: History, asks: Asks, id: string, approve: bool, now: int, settler: string)
    requires GateOk(h, asks) && Settle(asks, id, approve, now, settler).Ok?
    ensures var h2 := if approve then h.(approved := h.approved[id := now]) else h;
            GateOk(h2, asks[id := Settle(asks, id, approve, now, settler).value])
  {
    var h2 := if approve then h.(approved := h.approved[id := now]) else h;
    var more := asks[id := Settle(asks, id, approve, now, settler).value];
    assert Justified(h, id, asks[id]);
    forall i | 0 <= i < |h2.released|
      ensures Earned(h2, h2.released[i])
    {
      assert Earned(h, h.released[i]);
    }
    forall x | x in more
      ensures Justified(h2, x, more[x])
    {
      assert Justified(h, x, asks[x]);
    }
  }

  lemma LapseOneGate(h: History, asks: Asks, id: string)
    requires GateOk(h, asks) && id in asks && (asks[id].status == Waiting || asks[id].status == Approved)
    ensures GateOk(h, asks[id := asks[id].(status := Lapsed)])
  {
    var more := asks[id := asks[id].(status := Lapsed)];
    forall x | x in more
      ensures Justified(h, x, more[x])
    {
      assert Justified(h, x, asks[x]);
    }
  }

  /** The approval on record was given before the request expired. */
  ghost predicate ApprovedInTime(h: History) {
    forall id | id in h.approved :: id in h.escalated && h.approved[id] <= h.escalated[id].expires
  }

  /** A request that is redeemed has never been redeemed before. */
  lemma RedeemGate(h: History, asks: Asks, id: string, application: string, text: string, now: int)
    requires GateOk(h, asks) && ApprovedInTime(h) && Redeem(asks, id, application, text, now).Ok?
    ensures var h2 := h.(released := h.released + [Release(id, text, now)]);
            GateOk(h2, asks[id := Redeem(asks, id, application, text, now).value])
  {
    var r := Release(id, text, now);
    var h2 := h.(released := h.released + [r]);
    var more := asks[id := Redeem(asks, id, application, text, now).value];
    assert Justified(h, id, asks[id]);
    forall i | 0 <= i < |h2.released|
      ensures Earned(h2, h2.released[i])
    {
      assert i < |h.released| ==> Earned(h, h.released[i]);
    }
    forall x | x in more
      ensures Justified(h2, x, more[x])
    {
      assert Justified(h, x, asks[x]);
    }
  }
}
