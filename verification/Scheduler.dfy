/**
 * Turn scheduling: the least charged application goes first, except that one sharing
 * the last executed prompt prefix may jump ahead within a band of the least charge.
 */
module Scheduler {
  import opened Wrappers
  import opened Mailboxes
  import opened SupervisorState
  import opened Sums
  import opened UsageLedger

  /** An application's first pending message; `affine` if it shares the last prompt prefix. */
  datatype Work = Work(number: nat, affine: bool)

  /** What the scheduler sees of an application. */
  datatype Runnable = Runnable(id: AppId, used: Word, created: int, eligible: bool, work: Option<Work>)

  predicate Ready(r: Runnable) { r.eligible && r.work.Some? }

  /** `maxThrottleBand`. */
  function Band(m: nat): (r: nat)
    ensures r >= 64 && r >= m / 4 && (r == 64 || r == m / 4)
  {
    if m / 4 < 64 then 64 else m / 4
  }

  /** How far a charge may be from the least one for affinity to count. */
  function Reach(m: Word): Word { SaturatingAdd(m, Band(m)) }

  predicate Before(a: Runnable, b: Runnable) { a.used < b.used || (a.used == b.used && a.created <= b.created) }

  predicate Ordered(rs: seq<Runnable>) { forall i, j | 0 <= i < j < |rs| :: Before(rs[i], rs[j]) }

  // ---- Ordering ----

  /** Where `r` goes in an ordered list. */
  method Insert(rs: seq<Runnable>, r: Runnable) returns (out: seq<Runnable>)
    requires Ordered(rs)
    ensures Ordered(out) && multiset(out) == multiset(rs) + multiset{r}
  {
    var i := |rs|;
    while i > 0 && !Before(rs[i - 1], r)
      invariant 0 <= i <= |rs| && forall j | i <= j < |rs| :: Before(r, rs[j])
    {
      i := i - 1;
    }
    out := rs[..i] + [r] + rs[i..];
    assert rs == rs[..i] + rs[i..];
    OrderedInsert(rs, r, i);
  }

  lemma OrderedInsert(rs: seq<Runnable>, r: Runnable, i: nat)
    requires Ordered(rs) && i <= |rs| && (forall j | i <= j < |rs| :: Before(r, rs[j])) && (i > 0 ==> Before(rs[i - 1], r))
    ensures Ordered(rs[..i] + [r] + rs[i..])
  {
    forall j | 0 <= j < i
      ensures Before(rs[j], r)
    {
      assert j < i - 1 ==> Before(rs[j], rs[i - 1]);
    }
  }

  method SortByCharge(rs: seq<Runnable>) returns (out: seq<Runnable>)
    ensures Ordered(out) && multiset(out) == multiset(rs)
  {
    out := [];
    for i := 0 to |rs|
      invariant Ordered(out) && multiset(out) == multiset(rs[..i])
    {
      out := Insert(out, rs[i]);
      assert rs[..i + 1] == rs[..i] + [rs[i]];
    }
    assert rs[..|rs|] == rs;
  }

  // ---- The choice ----

  /** The least charge among eligible applications, with or without work. */
  function Floor(rs: seq<Runnable>): Word {
    if rs == [] then MAX_UINT64
    else
      var m, last := Floor(rs[..|rs| - 1]), rs[|rs| - 1];
      if last.eligible && last.used < m then last.used else m
  }

  predicate Favoured(r: Runnable, reach: Word) { Ready(r) && r.work.value.affine && r.used <= reach }

  /** The first favoured application, or else the first with work. */
  ghost predicate IsPick(rs: seq<Runnable>, i: nat) {
    && i < |rs| && Ready(rs[i])
    && (if Favoured(rs[i], Reach(Floor(rs))) then forall j | 0 <= j < i :: !Favoured(rs[j], Reach(Floor(rs)))
        else
          && (forall j | 0 <= j < |rs| :: !Favoured(rs[j], Reach(Floor(rs))))
          && forall j | 0 <= j < i :: !Ready(rs[j]))
  }

  /** The ready positions in order, each once. */
  ghost predicate Candidates(rs: seq<Runnable>, candidates: seq<nat>) {
    && (forall c | 0 <= c < |candidates| :: candidates[c] < |rs| && Ready(rs[candidates[c]]))
    && (forall c, d | 0 <= c < d < |candidates| :: candidates[c] < candidates[d])
    && forall j | 0 <= j < |rs| && Ready(rs[j]) :: j in candidates
  }

  /** The first loop of `claimTurn`: the least eligible charge, and the applications with work. */
  method Gather(rs: seq<Runnable>) returns (least: Word, candidates: seq<nat>)
    ensures least == Floor(rs) && Candidates(rs, candidates)
  {
    least, candidates := MAX_UINT64, [];
    for i := 0 to |rs|
      invariant least == Floor(rs[..i])
      invariant forall c | 0 <= c < |candidates| :: candidates[c] < i && Ready(rs[candidates[c]])
      invariant forall c, d | 0 <= c < d < |candidates| :: candidates[c] < candidates[d]
      invariant forall j | 0 <= j < i && Ready(rs[j]) :: j in candidates
    {
      assert rs[..i + 1][..i] == rs[..i];
      if rs[i].eligible {
        if rs[i].used < least {
          least := rs[i].used;
        }
        if rs[i].work.Some? {
          candidates := candidates + [i];
        }
      }
    }
    assert rs[..|rs|] == rs;
  }

  /** The second loop of `claimTurn`: the first favoured candidate, or else the first. */
  method Choose(rs: seq<Runnable>) returns (choice: Option<nat>)
    ensures choice.Some? ==> IsPick(rs, choice.value)
    ensures choice.None? <==> forall i | 0 <= i < |rs| :: !Ready(rs[i])
  {
    hide Floor, Band;
    var least, candidates := Gather(rs);
    var reach := SaturatingAdd(least, Band(least));
    choice := None;
    for c := 0 to |candidates|
      invariant forall d | 0 <= d < c :: !Favoured(rs[candidates[d]], reach)
      invariant c == 0 ==> choice.None?
      invariant c > 0 ==> choice == Some(candidates[0])
    {
      var i := candidates[c];
      if rs[i].work.value.affine && rs[i].used <= reach {
        choice := Some(i);
        FirstOf(rs, candidates, c, reach);
        return;
      }
      if choice.None? {
        choice := Some(i);
      }
    }
    if choice.Some? {
      FirstOf(rs, candidates, 0, reach);
      forall j | 0 <= j < |rs|
        ensures !Favoured(rs[j], reach)
      {
        if Ready(rs[j]) {
          assert j in candidates;
        }
      }
    }
  }

  /** A ready application before the c-th candidate is an earlier candidate. */
  lemma FirstOf(rs: seq<Runnable>, candidates: seq<nat>, c: nat, reach: Word)
    requires c < |candidates| && (forall d | 0 <= d < |candidates| :: candidates[d] < |rs|)
    requires forall d, f | 0 <= d < f < |candidates| :: candidates[d] < candidates[f]
    requires forall j | 0 <= j < |rs| && Ready(rs[j]) :: j in candidates
    requires forall d | 0 <= d < c :: !Favoured(rs[candidates[d]], reach)
    ensures forall j | 0 <= j < candidates[c] :: !Favoured(rs[j], reach)
    ensures c == 0 ==> forall j | 0 <= j < candidates[0] :: !Ready(rs[j])
  {
    forall j | 0 <= j < candidates[c] && Ready(rs[j])
      ensures exists d :: 0 <= d < c && candidates[d] == j
    {
      var d :| 0 <= d < |candidates| && candidates[d] == j;
      assert d < c;
    }
  }

  // ---- One choice is fair ----

  lemma {:induction false} FloorIsLeast(rs: seq<Runnable>, i: nat)
    requires i < |rs| && rs[i].eligible
    ensures Floor(rs) <= rs[i].used
  {
    if i < |rs| - 1 {
      FloorIsLeast(rs[..|rs| - 1], i);
    }
  }

  lemma ReachGrows(a: Word, b: Word)
    requires a <= b
    ensures Reach(a) <= Reach(b) && b <= Reach(b)
  {
  }

  /** The chosen application is charged at most the band above any application that has work. */
  lemma ChoiceIsWithinBand(rs: seq<Runnable>, i: nat, j: nat)
    requires Ordered(rs) && IsPick(rs, i) && j < |rs| && Ready(rs[j])
    ensures rs[i].used <= Reach(rs[j].used) <= rs[j].used + Band(rs[j].used)
  {
    ReachGrows(rs[j].used, rs[j].used);
    if Favoured(rs[i], Reach(Floor(rs))) {
      FloorIsLeast(rs, j);
      ReachGrows(Floor(rs), rs[j].used);
    } else {
      assert i < j ==> Before(rs[i], rs[j]);
    }
  }

  // ---- Runs in which every application always has work ----

  type Charges = map<AppId, Word>

  /** Each turn settles before the next claim. */
  datatype Claim = Claim(app: AppId, cost: Word)

  /** The list shows every application, all of them ready, with its current charge. */
  ghost predicate Shows(rs: seq<Runnable>, charges: Charges) {
    && (forall i | 0 <= i < |rs| :: Ready(rs[i]) && rs[i].id in charges && rs[i].used == charges[rs[i].id])
    && forall id | id in charges :: exists i :: 0 <= i < |rs| && rs[i].id == id
  }

  /** The scheduler may claim `id`: the affinity flags and creation times are anything. */
  ghost predicate MayClaim(charges: Charges, id: AppId) {
    exists rs: seq<Runnable>, i: nat :: Ordered(rs) && Shows(rs, charges) && IsPick(rs, i) && rs[i].id == id
  }

  ghost predicate Takes(a: Charges, c: Claim, b: Charges) {
    MayClaim(a, c.app) && c.app in a && b == a[c.app := SaturatingAdd(a[c.app], c.cost)]
  }

  ghost predicate Schedule(trace: seq<Charges>, claims: seq<Claim>, most: nat) {
    && |trace| == |claims| + 1
    && forall i | 0 <= i < |claims| :: Took(trace, claims, i) && 1 <= claims[i].cost <= most
  }

  ghost predicate Took(trace: seq<Charges>, claims: seq<Claim>, i: nat)
    requires i < |claims| && |trace| == |claims| + 1
  {
    Takes(trace[i], claims[i], trace[i + 1])
  }

  lemma ClaimIsWithinBand(charges: Charges, x: AppId, y: AppId)
    requires MayClaim(charges, x) && y in charges
    ensures x in charges && charges[x] <= Reach(charges[y])
  {
    var rs: seq<Runnable>, i: nat :| Ordered(rs) && Shows(rs, charges) && IsPick(rs, i) && rs[i].id == x;
    var j :| 0 <= j < |rs| && rs[j].id == y;
    ChoiceIsWithinBand(rs, i, j);
  }

  /** Every charge is within the band and one turn of every other. */
  ghost predicate Level(charges: Charges, most: nat) {
    forall x, y | x in charges && y in charges :: charges[x] <= charges[y] + Band(charges[y]) + most
  }

  lemma TakesKeepsLevel(a: Charges, c: Claim, b: Charges, most: nat)
    requires Takes(a, c, b) && Level(a, most) && c.cost <= most
    ensures Level(b, most)
  {
    forall x, y | x in b && y in b
      ensures b[x] <= b[y] + Band(b[y]) + most
    {
      assert a[x] <= a[y] + Band(a[y]) + most;
      assert a[y] <= b[y];
      if x == c.app {
        ClaimIsWithinBand(a, x, y);
      }
    }
  }

  /**
   * From equal charges, with every application always eligible and backlogged, no charge ever exceeds the least
   * by more than the band and one turn.
   */
  lemma {:induction false} ChargesStayLevel(trace: seq<Charges>, claims: seq<Claim>, most: nat, i: nat)
    requires Schedule(trace, claims, most) && i < |trace|
    requires forall x, y | x in trace[0] && y in trace[0] :: trace[0][x] == trace[0][y]
    ensures Level(trace[i], most)
  {
    hide Level, Takes;
    if i == 0 {
      EqualIsLevel(trace[0], most);
    } else {
      ChargesStayLevel(trace, claims, most, i - 1);
      assert Took(trace, claims, i - 1);
      TakesKeepsLevel(trace[i - 1], claims[i - 1], trace[i], most);
    }
  }

  lemma EqualIsLevel(charges: Charges, most: nat)
    requires forall x, y | x in charges && y in charges :: charges[x] == charges[y]
    ensures Level(charges, most)
  {
    hide Band;
    forall x, y | x in charges && y in charges
      ensures charges[x] <= charges[y] + Band(charges[y]) + most
    {
      assert charges[x] == charges[y];
    }
  }

  // ---- No application waits for ever ----

  /** How many more turns each other application can take before it is out of reach of `y`. */
  ghost function Slack(charges: Charges, y: AppId, reach: Word): map<AppId, nat> {
    map x | x in charges && x != y :: if charges[x] <= reach then reach + 1 - charges[x] else 0
  }

  lemma SlackStep(a: Charges, x: AppId, charge: Word, y: AppId, reach: Word)
    requires x in a && x != y
    ensures Slack(a[x := charge], y, reach) == Slack(a, y, reach)[x := if charge <= reach then reach + 1 - charge else 0]
  {
  }

  lemma TurnSpendsSlack(a: Charges, c: Claim, b: Charges, y: AppId)
    requires Takes(a, c, b) && y in a && c.app != y && 1 <= c.cost && Reach(a[y]) < MAX_UINT64
    ensures b[y] == a[y] && Total(Slack(b, y, Reach(a[y]))) < Total(Slack(a, y, Reach(a[y])))
  {
    var reach := Reach(a[y]);
    ClaimIsWithinBand(a, c.app, y);
    hide MayClaim, Reach;
    SlackStep(a, c.app, b[c.app], y, reach);
    SlackAt(a, c.app, y, reach);
    TotalUpdate(Slack(a, y, reach), c.app, if b[c.app] <= reach then reach + 1 - b[c.app] else 0);
  }

  lemma SlackAt(a: Charges, x: AppId, y: AppId, reach: Word)
    requires x in a && x != y && a[x] <= reach
    ensures x in Slack(a, y, reach) && Slack(a, y, reach)[x] == reach + 1 - a[x]
  {
  }

  lemma {:induction false} TotalAtMost(m: map<AppId, nat>, bound: nat)
    requires forall k | k in m :: m[k] <= bound
    ensures Total(m) <= |m| * bound
    decreases |m|
  {
    if m != map[] {
      var k :| k in m;
      TotalRemove(m, k);
      OneLess(m, k);
      TotalAtMost(m - {k}, bound);
      Distribute(|m|, bound);
    }
  }

  lemma OneLess(m: map<AppId, nat>, k: AppId)
    requires k in m
    ensures |m - {k}| == |m| - 1
  {
    assert m.Keys == (m - {k}).Keys + {k};
    MapSize(m);
    MapSize(m - {k});
  }

  lemma Distribute(n: nat, bound: nat)
    requires n > 0
    ensures (n - 1) * bound + bound == n * bound
  {
  }

  lemma MapSize(m: map<AppId, nat>)
    ensures |m| == |m.Keys|
  {
  }

  lemma {:induction false} WaitSpendsSlack(trace: seq<Charges>, claims: seq<Claim>, most: nat, y: AppId, i: nat)
    requires Schedule(trace, claims, most) && y in trace[0] && Reach(trace[0][y]) < MAX_UINT64 && i < |trace|
    requires forall j | 0 <= j < i :: claims[j].app != y
    ensures y in trace[i] && trace[i][y] == trace[0][y]
    ensures i + Total(Slack(trace[i], y, Reach(trace[0][y]))) <= Total(Slack(trace[0], y, Reach(trace[0][y])))
  {
    if i > 0 {
      WaitSpendsSlack(trace, claims, most, y, i - 1);
      assert Took(trace, claims, i - 1);
      TurnSpendsSlack(trace[i - 1], claims[i - 1], trace[i], y);
    }
  }

  /** An application waits no longer than the others' slack allows. */
  lemma WaitWithin(trace: seq<Charges>, claims: seq<Claim>, most: nat, y: AppId, bound: nat)
    requires Schedule(trace, claims, most) && y in trace[0] && Reach(trace[0][y]) < MAX_UINT64
    requires forall j | 0 <= j < |claims| :: claims[j].app != y
    requires forall x | x in trace[0] && x != y :: Reach(trace[0][y]) + 1 <= trace[0][x] + bound
    ensures |claims| <= (|trace[0]| - 1) * bound
  {
    var slack := Slack(trace[0], y, Reach(trace[0][y]));
    WaitSpendsSlack(trace, claims, most, y, |claims|);
    hide Schedule, Reach;
    TotalAtMost(slack, bound);
    assert slack.Keys == trace[0].Keys - {y};
    assert |slack.Keys| == |trace[0].Keys| - 1;
    SlackSize(trace[0], slack);
  }

  /**
   * Starvation is bounded: below saturation, an application with charge T waits at most as many turns as the
   * others can take before they leave its reach, T + max(T/4, 64).
   */
  lemma WaitIsBounded(trace: seq<Charges>, claims: seq<Claim>, most: nat, y: AppId)
    requires Schedule(trace, claims, most) && y in trace[0] && Reach(trace[0][y]) < MAX_UINT64
    requires forall j | 0 <= j < |claims| :: claims[j].app != y
    ensures |claims| <= (|trace[0]| - 1) * (Reach(trace[0][y]) + 1)
  {
    WaitWithin(trace, claims, most, y, Reach(trace[0][y]) + 1);
  }

  /** From equal charges T the wait depends on the band alone. */
  lemma WaitFromEqual(trace: seq<Charges>, claims: seq<Claim>, most: nat, y: AppId)
    requires Schedule(trace, claims, most) && y in trace[0] && Reach(trace[0][y]) < MAX_UINT64
    requires forall x | x in trace[0] :: trace[0][x] == trace[0][y]
    requires forall j | 0 <= j < |claims| :: claims[j].app != y
    ensures |claims| <= (|trace[0]| - 1) * (Band(trace[0][y]) + 1)
  {
    WaitWithin(trace, claims, most, y, Band(trace[0][y]) + 1);
  }

  lemma LevelBound(charges: Charges, most: nat, y: AppId, x: AppId)
    requires Level(charges, most) && x in charges && y in charges
    ensures Reach(charges[y]) + 1 <= charges[x] + (2 * Band(charges[y]) + most + 1)
  {
    assert charges[y] <= charges[x] + Band(charges[x]) + most;
  }

  lemma {:induction false} SameApplications(trace: seq<Charges>, claims: seq<Claim>, most: nat, i: nat)
    requires Schedule(trace, claims, most) && i < |trace|
    ensures trace[i].Keys == trace[0].Keys
  {
    hide MayClaim;
    if i > 0 {
      SameApplications(trace, claims, most, i - 1);
      assert Took(trace, claims, i - 1);
    }
  }

  lemma ScheduleFrom(trace: seq<Charges>, claims: seq<Claim>, most: nat, i: nat, j: nat)
    requires Schedule(trace, claims, most) && i <= j < |trace|
    ensures Schedule(trace[i..j + 1], claims[i..j], most)
  {
    hide Takes;
    var some, taken := trace[i..j + 1], claims[i..j];
    forall k | 0 <= k < |taken|
      ensures Took(some, taken, k) && 1 <= taken[k].cost <= most
    {
      assert Took(trace, claims, i + k);
    }
  }

  /**
   * In a run from equal charges, at whatever point it starts to wait, an application with charge T below saturation
   * waits at most (n - 1) * (2 * max(T/4, 64) + C + 1) turns: no part of the bound but the band grows with the charge.
   */
  lemma EveryoneIsClaimed(trace: seq<Charges>, claims: seq<Claim>, most: nat, y: AppId, i: nat, j: nat)
    requires Schedule(trace, claims, most) && y in trace[0] && i <= j < |trace|
    requires forall x, z | x in trace[0] && z in trace[0] :: trace[0][x] == trace[0][z]
    requires forall k | i <= k < j :: claims[k].app != y
    ensures y in trace[i]
    ensures Reach(trace[i][y]) < MAX_UINT64 ==> j - i <= (|trace[0]| - 1) * (2 * Band(trace[i][y]) + most + 1)
  {
    hide Reach, Band, Takes, Level;
    SameApplications(trace, claims, most, i);
    SameSize(trace[i], trace[0]);
    ChargesStayLevel(trace, claims, most, i);
    if Reach(trace[i][y]) < MAX_UINT64 {
      ScheduleFrom(trace, claims, most, i, j);
      forall x | x in trace[i]
        ensures Reach(trace[i][y]) + 1 <= trace[i][x] + (2 * Band(trace[i][y]) + most + 1)
      {
        LevelBound(trace[i], most, y, x);
      }
      WaitWithin(trace[i..j + 1], claims[i..j], most, y, 2 * Band(trace[i][y]) + most + 1);
    }
  }

  lemma SameSize(a: Charges, b: Charges)
    requires a.Keys == b.Keys
    ensures |a| == |b|
  {
    assert |a.Keys| == |b.Keys|;
  }

  lemma SlackSize(charges: Charges, slack: map<AppId, nat>)
    requires |slack.Keys| == |charges.Keys| - 1
    ensures |slack| == |charges| - 1
  {
  }

  /**
   * At saturation the bound fails, and exactly there: once T + max(T/4, 64) reaches the top of the counter, a
   * saturated application with prefix affinity is chosen for ever and its charge no longer moves.
   */
  lemma SaturationStarves(charge: Word, x: AppId, y: AppId, turns: nat)
    requires x != y && charge + Band(charge) >= MAX_UINT64
    ensures var start: Charges := map[y := charge, x := MAX_UINT64];
            Schedule(seq(turns + 1, _ => start), seq(turns, _ => Claim(x, 1)), 1)
  {
    var start: Charges := map[y := charge, x := MAX_UINT64];
    assert MayClaim(start, x) by {
      var rs := [Runnable(y, charge, 0, true, Some(Work(1, false))), Runnable(x, MAX_UINT64, 0, true, Some(Work(2, true)))];
      assert rs[..1] == [rs[0]] && [rs[0]][..0] == [];
      assert Floor([rs[0]]) == charge;
      assert Floor(rs) == charge;
      assert IsPick(rs, 1);
      assert rs[0].id == y && rs[1].id == x;
      assert Shows(rs, start);
    }
    var trace, claims := seq(turns + 1, _ => start), seq(turns, _ => Claim(x, 1));
    assert start[x := SaturatingAdd(start[x], 1)] == start;
    forall i | 0 <= i < |claims|
      ensures Took(trace, claims, i)
    {
    }
  }
}
