/**
 * The seccomp program of the sandbox launcher, the classic-BPF machine that
 * runs it, and the verdict it is meant to compute.
 */
module Bpf {
  import opened Wrappers

  /** The words of `struct seccomp_data` the program loads. */
  datatype Field = Arch | Nr | Arg0

  datatype Data = Data(arch: bv32, nr: bv32, arg0: bv32) {
    function Load(f: Field): bv32 {
      match f
      case Arch => arch
      case Nr => nr
      case Arg0 => arg0
    }
  }

  datatype Verdict = KillProcess | Errno(code: nat) | Allow

  const EPERM: nat := 1
  const ENOSYS: nat := 38
  const X32_BIT: bv32 := 0x4000_0000
  const AF_INET: bv32 := 2
  const AF_INET6: bv32 := 10
  const UINT32_MAX: bv32 := 0xFFFF_FFFF
  /** CLONE_NEWNS|NEWCGROUP|NEWUTS|NEWIPC|NEWUSER|NEWPID|NEWNET. */
  const CLONE_NAMESPACES: bv32 :=
    0x0002_0000 | 0x0200_0000 | 0x0400_0000 | 0x0800_0000 | 0x1000_0000 | 0x2000_0000 | 0x4000_0000

  /** A conditional jump skips `jt` or `jf` instructions after itself. */
  datatype Insn =
    | Ld(f: Field)
    | Jeq(k: bv32, jt: nat, jf: nat)
    | Jge(k: bv32, jt: nat, jf: nat)
    | Jset(k: bv32, jt: nat, jf: nat)
    | Ret(v: Verdict)

  /** Executes from `pc` with accumulator `a`; `None` is running off the end. */
  function Run(code: seq<Insn>, d: Data, pc: nat, a: bv32): (r: Option<Verdict>)
    decreases |code| - pc
  {
    if pc >= |code| then None else
      match code[pc]
      case Ld(f) => Run(code, d, pc + 1, d.Load(f))
      case Jeq(k, jt, jf) => Run(code, d, pc + 1 + (if a == k then jt else jf), a)
      case Jge(k, jt, jf) => Run(code, d, pc + 1 + (if a >= k then jt else jf), a)
      case Jset(k, jt, jf) => Run(code, d, pc + 1 + (if a & k != 0 then jt else jf), a)
      case Ret(v) => Some(v)
  }

  /** Syscall numbers and audit architecture of the build target. */
  datatype Target = Target(x86: bool, arch: bv32, clone: bv32, clone3: bv32, socket: bv32)

  function Preamble(t: Target): seq<Insn> {
    [Ld(Arch), Jeq(t.arch, 1, 0), Ret(KillProcess), Ld(Nr)]
    + (if t.x86 then [Jge(X32_BIT, 0, 1), Ret(KillProcess)] else [])
  }

  /** One `DENY(nr)` per listed syscall. */
  function Denies(deny: seq<bv32>): (c: seq<Insn>)
    ensures |c| == 2 * |deny|
  {
    if deny == [] then [] else [Jeq(deny[0], 0, 1), Ret(Errno(EPERM))] + Denies(deny[1..])
  }

  /** Refuses `clone3` so that libc falls back to `clone`, whose flags are visible. */
  function CloneBlock(t: Target): seq<Insn> {
    [ Jeq(t.clone3, 0, 1),
      Ret(Errno(ENOSYS)),
      Jeq(t.clone, 0, 4),
      Ld(Arg0),
      Jset(CLONE_NAMESPACES, 0, 1),
      Ret(Errno(EPERM)),
      Ret(Allow) ]
  }

  function SocketBlock(t: Target, network: bool): seq<Insn> {
    [ Jeq(t.socket, 0, 6),
      Ld(Arg0),
      Jeq(if network then AF_INET else UINT32_MAX, 2, 0),
      Jeq(if network then AF_INET6 else UINT32_MAX, 1, 0),
      Ret(Errno(EPERM)),
      Ret(Allow),
      Ret(Errno(EPERM)),
      Ret(Allow) ]
  }

  function Tail(t: Target, network: bool): seq<Insn> {
    CloneBlock(t) + SocketBlock(t, network)
  }

  function Program(t: Target, deny: seq<bv32>, network: bool): seq<Insn> {
    Preamble(t) + Denies(deny) + Tail(t, network)
  }

  /** The intended decision for calls that reach the argument checks. */
  function TailVerdict(t: Target, network: bool, d: Data): Verdict {
    if d.nr == t.clone3 then Errno(ENOSYS)
    else if d.nr == t.clone then
      if d.arg0 & CLONE_NAMESPACES != 0 then Errno(EPERM) else Allow
    else if d.nr == t.socket then
      if FamilyAdmitted(network, d.arg0) then Allow else Errno(EPERM)
    else Allow
  }

  predicate FamilyAdmitted(network: bool, family: bv32) {
    if network then family == AF_INET || family == AF_INET6 else family == UINT32_MAX
  }

  /** The whole decision, as a reader of the policy would state it. */
  function Decide(t: Target, deny: seq<bv32>, network: bool, d: Data): Verdict {
    if d.arch != t.arch then KillProcess
    else if t.x86 && d.nr >= X32_BIT then KillProcess
    else if d.nr in deny then Errno(EPERM)
    else TailVerdict(t, network, d)
  }

  /** Walking a deny table of any length stops exactly at a listed number. */
  lemma {:induction false} RunDenies(pre: seq<Insn>, deny: seq<bv32>, suf: seq<Insn>, d: Data)
    decreases |deny|
    ensures var code := pre + Denies(deny) + suf;
            Run(code, d, |pre|, d.nr) ==
            if d.nr in deny then Some(Errno(EPERM)) else Run(code, d, |pre| + 2 * |deny|, d.nr)
  {
    var code := pre + Denies(deny) + suf;
    if deny != [] {
      var pair := [Jeq(deny[0], 0, 1), Ret(Errno(EPERM))];
      assert code == (pre + pair) + Denies(deny[1..]) + suf;
      assert code[|pre|] == pair[0] && code[|pre| + 1] == pair[1];
      RunDenies(pre + pair, deny[1..], suf, d);
      assert deny == [deny[0]] + deny[1..];
    }
  }

  /** `block` sits in `code` at offset `n`. */
  predicate At(code: seq<Insn>, n: nat, block: seq<Insn>) {
    n + |block| <= |code| && forall i | 0 <= i < |block| :: code[n + i] == block[i]
  }

  lemma RunClone(code: seq<Insn>, n: nat, t: Target, d: Data)
    requires At(code, n, CloneBlock(t))
    ensures Run(code, d, n, d.nr) ==
            if d.nr == t.clone3 then Some(Errno(ENOSYS))
            else if d.nr == t.clone then
              Some(if d.arg0 & CLONE_NAMESPACES != 0 then Errno(EPERM) else Allow)
            else Run(code, d, n + 7, d.nr)
  {
    var b := CloneBlock(t);
    assert code[n + 0] == b[0] && code[n + 1] == b[1] && code[n + 2] == b[2] && code[n + 3] == b[3];
    assert code[n + 4] == b[4] && code[n + 5] == b[5] && code[n + 6] == b[6];
    assert Run(code, d, n + 3, d.nr) == Run(code, d, n + 4, d.arg0);
    assert Run(code, d, n + 4, d.arg0) ==
           Run(code, d, n + (if d.arg0 & CLONE_NAMESPACES != 0 then 5 else 6), d.arg0);
    assert Run(code, d, n + 2, d.nr) == Run(code, d, n + (if d.nr == t.clone then 3 else 7), d.nr);
    assert Run(code, d, n, d.nr) == Run(code, d, n + (if d.nr == t.clone3 then 1 else 2), d.nr);
  }

  lemma RunSocket(code: seq<Insn>, n: nat, t: Target, network: bool, d: Data)
    requires At(code, n, SocketBlock(t, network))
    ensures Run(code, d, n, d.nr) ==
            Some(if d.nr != t.socket || FamilyAdmitted(network, d.arg0) then Allow else Errno(EPERM))
  {
    var b := SocketBlock(t, network);
    assert code[n + 0] == b[0] && code[n + 1] == b[1] && code[n + 2] == b[2] && code[n + 3] == b[3];
    assert code[n + 4] == b[4] && code[n + 5] == b[5] && code[n + 7] == b[7];
    assert Run(code, d, n + 1, d.nr) == Run(code, d, n + 2, d.arg0);
    assert Run(code, d, n + 5, d.arg0) == Some(Allow);
    assert Run(code, d, n + 3, d.arg0) ==
           Some(if d.arg0 == (if network then AF_INET6 else UINT32_MAX) then Allow else Errno(EPERM));
  }

  lemma RunTail(code: seq<Insn>, n: nat, t: Target, network: bool, d: Data)
    requires At(code, n, Tail(t, network))
    ensures Run(code, d, n, d.nr) == Some(TailVerdict(t, network, d))
  {
    var tail, c, s := Tail(t, network), CloneBlock(t), SocketBlock(t, network);
    assert forall i | 0 <= i < |c| :: c[i] == tail[i];
    assert At(code, n, c);
    forall i | 0 <= i < |s|
      ensures code[n + 7 + i] == s[i]
    {
      assert code[n + (7 + i)] == tail[7 + i];
    }
    assert At(code, n + 7, s);
    RunClone(code, n, t, d);
    RunSocket(code, n + 7, t, network, d);
  }

  /** The architecture checks, and the number left in the accumulator for the rest. */
  lemma RunPreamble(code: seq<Insn>, t: Target, d: Data, a: bv32)
    requires At(code, 0, Preamble(t))
    ensures Run(code, d, 0, a) ==
            if d.arch != t.arch || (t.x86 && d.nr >= X32_BIT) then Some(KillProcess) else Run(code, d, |Preamble(t)|, d.nr)
  {
    var pre := Preamble(t);
    assert code[0 + 0] == pre[0] && code[0 + 1] == pre[1] && code[0 + 2] == pre[2] && code[0 + 3] == pre[3];
    assert Run(code, d, 0, a) == Run(code, d, 1, d.arch);
    if d.arch != t.arch {
      assert Run(code, d, 1, d.arch) == Run(code, d, 2, d.arch);
    } else {
      assert Run(code, d, 1, d.arch) == Run(code, d, 3, d.arch) == Run(code, d, 4, d.nr);
      if t.x86 {
        assert code[0 + 4] == pre[4] && code[0 + 5] == pre[5];
        assert Run(code, d, 4, d.nr) == Run(code, d, if d.nr >= X32_BIT then 5 else 6, d.nr);
      }
    }
  }

  /** The threaded program computes the stated decision on every input. */
  lemma FilterMatchesPolicy(t: Target, deny: seq<bv32>, network: bool, d: Data, a: bv32)
    ensures Run(Program(t, deny, network), d, 0, a) == Some(Decide(t, deny, network, d))
  {
    hide Run, Preamble, Denies, Tail, TailVerdict;
    var pre, code := Preamble(t), Program(t, deny, network);
    assert At(code, 0, pre) && At(code, |pre| + 2 * |deny|, Tail(t, network));
    RunPreamble(code, t, d, a);
    RunDenies(pre, deny, Tail(t, network), d);
    RunTail(code, |pre| + 2 * |deny|, t, network, d);
  }

  /**
   * Without the network flag every socket call is refused, except one for
   * family 0xFFFFFFFF, the number the program uses as a placeholder.
   */
  lemma SocketsClosedWithoutNetwork(t: Target, deny: seq<bv32>, d: Data)
    requires d.arch == t.arch && !(t.x86 && d.nr >= X32_BIT)
    requires d.nr == t.socket && d.nr != t.clone && d.nr != t.clone3
    ensures Run(Program(t, deny, false), d, 0, 0) == Some(Allow)
            <==> d.nr !in deny && d.arg0 == UINT32_MAX
  {
    FilterMatchesPolicy(t, deny, false, d, 0);
  }

  /** On x86-64, where `socket` has number 41, such a call goes through any deny list that does not name it. */
  lemma PlaceholderExample(deny: seq<bv32>)
    requires 41 !in deny
    ensures Run(Program(Target(true, 0xC000003E, 56, 435, 41), deny, false), Data(0xC000003E, 41, 0xFFFFFFFF), 0, 0) == Some(Allow)
  {
    SocketsClosedWithoutNetwork(Target(true, 0xC000003E, 56, 435, 41), deny, Data(0xC000003E, 41, 0xFFFFFFFF));
  }
}
