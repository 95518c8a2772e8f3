/**
 * The saturating usage ledger of one engine session.
 */
module UsageLedger {

  const MAX_UINT64: nat := 0xFFFF_FFFF_FFFF_FFFF

  function Min(a: nat, b: nat): nat { if a < b then a else b }

  /** `saturatingAdd` on two 64-bit values. */
  function SaturatingAdd(a: nat, b: nat): (r: nat)
    requires a <= MAX_UINT64
    ensures r == Min(MAX_UINT64, a + b)
  {
    if MAX_UINT64 - a < b then MAX_UINT64 else a + b
  }

  function Sum(xs: seq<nat>): nat {
    if xs == [] then 0 else Sum(xs[..|xs| - 1]) + xs[|xs| - 1]
  }

  /** The charge left after applying every amount in order with saturation. */
  function Charge(xs: seq<nat>): (r: nat)
    ensures r <= MAX_UINT64
  {
    if xs == [] then 0 else SaturatingAdd(Charge(xs[..|xs| - 1]), xs[|xs| - 1])
  }

  /** Saturation commutes with summing: only the exact total matters. */
  lemma {:induction false} ChargeIsCappedSum(xs: seq<nat>)
    ensures Charge(xs) == Min(MAX_UINT64, Sum(xs))
  {
    if xs != [] {
      ChargeIsCappedSum(xs[..|xs| - 1]);
    }
  }

  lemma ChargeSnoc(xs: seq<nat>, x: nat)
    ensures Charge(xs + [x]) == SaturatingAdd(Charge(xs), x)
    ensures Sum(xs + [x]) == Sum(xs) + x
  {
    assert (xs + [x])[..|xs|] == xs;
  }

  datatype ApplyError = UsageSequence | Quota

  datatype ApplyResult = Applied | Duplicate | Refused(error: ApplyError)

  /** The ledger's fields. A zero `hardLimit` means no limit. */
  datatype Account = Account(hardLimit: nat, used: nat, lastId: nat, lastSeq: nat)

  const EmptyAccount := Account(0, 0, 0, 0)

  /** `Ledger.Apply` on values. */
  function Post(a: Account, id: nat, seqNo: nat, amount: nat): (Account, ApplyResult)
    requires a.used <= MAX_UINT64
  {
    if id == a.lastId && id != 0 then (a, Duplicate)
    else if seqNo <= a.lastSeq then (a, Refused(UsageSequence))
    else if a.hardLimit != 0 && a.used + amount > a.hardLimit then (a, Refused(Quota))
    else (a.(used := SaturatingAdd(a.used, amount), lastId := id, lastSeq := seqNo), Applied)
  }

  class Ledger {
    var hardLimit: nat
    var used: nat
    var lastId: nat
    var lastSeq: nat
    ghost var amounts: seq<nat>

    ghost function View(): Account
      reads this
    {
      Account(hardLimit, used, lastId, lastSeq)
    }

    /** The charge is the saturating sum of the amounts accepted so far, within the limit. */
    ghost predicate Valid()
      reads this
    {
      && used == Charge(amounts)
      && (hardLimit != 0 ==> used <= hardLimit)
    }

    constructor (limit: nat)
      ensures Valid() && View() == Account(limit, 0, 0, 0) && amounts == []
    {
      hardLimit, used, lastId, lastSeq, amounts := limit, 0, 0, 0, [];
    }

    method Apply(id: nat, seqNo: nat, amount: nat) returns (r: ApplyResult)
      requires Valid() && amount <= MAX_UINT64 && hardLimit <= MAX_UINT64
      modifies this
      ensures Valid() && (View(), r) == Post(old(View()), id, seqNo, amount)
      ensures amounts == if r.Applied? then old(amounts) + [amount] else old(amounts)
    {
      hide Charge, Sum;
      if id == lastId && id != 0 {
        return Duplicate;
      }
      if seqNo <= lastSeq {
        return Refused(UsageSequence);
      }
      if hardLimit != 0 && (used > hardLimit || amount > hardLimit - used) {
        return Refused(Quota);
      }
      ChargeSnoc(amounts, amount);
      if MAX_UINT64 - used < amount {
        used := MAX_UINT64;
      } else {
        used := used + amount;
      }
      lastId, lastSeq := id, seqNo;
      amounts := amounts + [amount];
      return Applied;
    }
  }
}
