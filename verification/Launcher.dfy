/**
 * The sandbox launcher's command line: the policy side that prints it and
 * the launcher side that reads it back.
 */
module Launcher {
  import opened Wrappers
  import opened Text
  import opened Paths

  datatype Policy = Policy(read: seq<string>, write: seq<string>, execute: seq<string>,
                           network: bool, keepFd: seq<int>)

  datatype ArgsError = BadCommand | BadPath | BadDescriptor

  const RECURSIVE := "/**"

  function Trimmed(path: string): string { TrimSuffix(path, RECURSIVE) }

  predicate Special(c: char) { c == '*' || c == '?' || c == '[' || c == ']' || c == '\0' }

  predicate PathAccepted(path: string) {
    var p := Trimmed(path);
    IsAbs(p) && IsClean(p) && forall i | 0 <= i < |p| :: !Special(p[i])
  }

  predicate FdAccepted(fd: int) { 3 <= fd <= 63 }

  predicate CommandAccepted(command: seq<string>) { command != [] && IsAbs(command[0]) }

  predicate AllPaths(paths: seq<string>) { forall i | 0 <= i < |paths| :: PathAccepted(paths[i]) }

  predicate AllFds(fds: seq<int>) { forall i | 0 <= i < |fds| :: FdAccepted(fds[i]) }

  function PathArgs(flag: string, paths: seq<string>): seq<string> {
    if paths == [] then [] else [flag, Trimmed(paths[0])] + PathArgs(flag, paths[1..])
  }

  function FdArgs(fds: seq<int>): seq<string> {
    if fds == [] then [] else ["--keep-fd", DecInt(fds[0])] + FdArgs(fds[1..])
  }

  /** The option part of the command line, before the `--`. */
  function Options(p: Policy): seq<string> {
    PathArgs("--read", p.read) + PathArgs("--write", p.write) + PathArgs("--execute", p.execute)
    + (if p.network then ["--net"] else []) + FdArgs(p.keepFd)
  }

  lemma {:induction false} PathArgsSnoc(flag: string, paths: seq<string>, x: string)
    ensures PathArgs(flag, paths + [x]) == PathArgs(flag, paths) + [flag, Trimmed(x)]
  {
    if paths == [] {
      assert (paths + [x])[1..] == [];
    } else {
      assert (paths + [x])[1..] == paths[1..] + [x];
      PathArgsSnoc(flag, paths[1..], x);
    }
  }

  lemma {:induction false} FdArgsSnoc(fds: seq<int>, x: int)
    ensures FdArgs(fds + [x]) == FdArgs(fds) + ["--keep-fd", DecInt(x)]
  {
    if fds == [] {
      assert (fds + [x])[1..] == [];
    } else {
      assert (fds + [x])[1..] == fds[1..] + [x];
      FdArgsSnoc(fds[1..], x);
    }
  }

  /** One group of the nested loop in `Policy.Args`. */
  method AppendGroup(args: seq<string>, flag: string, paths: seq<string>)
    returns (r: Result<seq<string>, ArgsError>)
    ensures r == if AllPaths(paths) then Ok(args + PathArgs(flag, paths)) else Err(BadPath)
  {
    var out := args;
    for i := 0 to |paths|
      invariant AllPaths(paths[..i])
      invariant out == args + PathArgs(flag, paths[..i])
    {
      if !PathAccepted(paths[i]) {
        return Err(BadPath);
      }
      PathArgsSnoc(flag, paths[..i], paths[i]);
      assert paths[..i + 1] == paths[..i] + [paths[i]];
      out := out + [flag, Trimmed(paths[i])];
    }
    assert paths[..|paths|] == paths;
    return Ok(out);
  }

  /** The delegated-descriptor loop. */
  method AppendFds(args: seq<string>, fds: seq<int>) returns (r: Result<seq<string>, ArgsError>)
    ensures r == if AllFds(fds) then Ok(args + FdArgs(fds)) else Err(BadDescriptor)
  {
    var out := args;
    for i := 0 to |fds|
      invariant AllFds(fds[..i])
      invariant out == args + FdArgs(fds[..i])
    {
      if !FdAccepted(fds[i]) {
        return Err(BadDescriptor);
      }
      FdArgsSnoc(fds[..i], fds[i]);
      assert fds[..i + 1] == fds[..i] + [fds[i]];
      out := out + ["--keep-fd", DecInt(fds[i])];
    }
    assert fds[..|fds|] == fds;
    return Ok(out);
  }

  predicate Accepted(p: Policy, command: seq<string>) {
    CommandAccepted(command) && AllPaths(p.read) && AllPaths(p.write) && AllPaths(p.execute) && AllFds(p.keepFd)
  }

  method Args(p: Policy, command: seq<string>) returns (r: Result<seq<string>, ArgsError>)
    ensures r.Ok? <==> Accepted(p, command)
    ensures r.Ok? ==> r.value == Options(p) + (["--"] + command)
  {
    hide PathArgs, FdArgs, AllPaths, AllFds;
    if command == [] || !IsAbs(command[0]) {
      return Err(BadCommand);
    }
    var g := AppendGroup([], "--read", p.read);
    if g.Err? { return g; }
    g := AppendGroup(g.value, "--write", p.write);
    if g.Err? { return g; }
    g := AppendGroup(g.value, "--execute", p.execute);
    if g.Err? { return g; }
    assert g.value == PathArgs("--read", p.read) + PathArgs("--write", p.write) + PathArgs("--execute", p.execute);
    g := AppendFds(if p.network then g.value + ["--net"] else g.value, p.keepFd);
    if g.Err? { return g; }
    assert g.value == Options(p);
    return Ok(g.value + (["--"] + command));
  }

  // ---- The launcher side ----

  datatype Rights = ReadDir | Mutate | ReadExec

  datatype LandlockRule = LandlockRule(rights: Rights, path: string)

  /** What the argument loop has accumulated. */
  datatype Config = Config(rules: seq<LandlockRule>, network: bool, keep: set<int>)

  datatype ParseError = MissingFd | InvalidFd | UnknownOption | MissingPath | RelativeRule | MissingCommand

  predicate IsSpace(c: char) { c == ' ' || c == '\t' || c == '\n' || c == '\r' || c as int == 11 || c as int == 12 }

  function SkipSpace(s: string): string {
    if s != "" && IsSpace(s[0]) then SkipSpace(s[1..]) else s
  }

  function DigitRun(s: string): (n: nat)
    ensures n <= |s| && AllDigits(s[..n])
  {
    if s == "" || !IsDigit(s[0]) then 0 else 1 + DigitRun(s[1..])
  }

  /**
   * `strtol(s, &end, 10)` together with the launcher's `*end` test: the number
   * when the whole text was consumed. Values past `long` are out of range anyway.
   */
  function Strtol(s: string): Option<int> {
    var t := SkipSpace(s);
    var signed := t != "" && (t[0] == '-' || t[0] == '+');
    var u := if signed then t[1..] else t;
    var n := DigitRun(u);
    if n == 0 then if s == "" then Some(0) else None
    else if n < |u| then None
    else Some(if signed && t[0] == '-' then -(Value(u) as int) else Value(u))
  }

  lemma {:induction false} DigitRunAll(s: string)
    requires AllDigits(s)
    ensures DigitRun(s) == |s|
  {
    if s != "" {
      assert forall i | 0 <= i < |s[1..]| :: s[1..][i] == s[i + 1];
      DigitRunAll(s[1..]);
    }
  }

  /** The printed descriptor reads back as the same number. */
  lemma StrtolOfDec(n: nat)
    ensures Strtol(DecInt(n)) == Some(n)
  {
    var s := Dec(n);
    assert IsDigit(s[0]);
    DigitRunAll(s);
    DecValue(n);
  }

  function RuleRights(flag: string): Option<Rights> {
    if flag == "--read" then Some(ReadDir)
    else if flag == "--write" then Some(Mutate)
    else if flag == "--execute" then Some(ReadExec)
    else None
  }

  /** The command itself may be read and executed. */
  function WithCommand(c: Config, path: string): Config {
    c.(rules := c.rules + [LandlockRule(ReadExec, path)])
  }

  /**
   * The meaning of `argv` as a left-to-right reading of the options. `open`
   * is the set of descriptors for which `fcntl(fd, F_GETFD)` succeeds. Every
   * rule path is assumed to exist; a relative one is refused.
   */
  function Parse(argv: seq<string>, c: Config, open: set<int>): Result<(Config, seq<string>), ParseError> {
    if argv == [] then Err(MissingCommand)
    else if argv[0] == "--" then
      if |argv| == 1 || !IsAbs(argv[1]) then Err(MissingCommand) else Ok((WithCommand(c, argv[1]), argv[1..]))
    else if argv[0] == "--net" then Parse(argv[1..], c.(network := true), open)
    else if argv[0] == "--keep-fd" then
      if |argv| == 1 then Err(MissingFd)
      else
        var fd := Strtol(argv[1]);
        if fd.None? || !FdAccepted(fd.value) || fd.value !in open then Err(InvalidFd)
        else Parse(argv[2..], c.(keep := c.keep + {fd.value}), open)
    else if RuleRights(argv[0]).None? then Err(UnknownOption)
    else if |argv| == 1 then Err(MissingPath)
    else if !IsAbs(argv[1]) then Err(RelativeRule)
    else Parse(argv[2..], c.(rules := c.rules + [LandlockRule(RuleRights(argv[0]).value, argv[1])]), open)
  }

  /** The index loop of `main`, over the arguments after the program name. */
  method ParseArguments(argv: seq<string>, open: set<int>) returns (r: Result<(Config, seq<string>), ParseError>)
    ensures r == Parse(argv, Config([], false, {}), open)
  {
    var c := Config([], false, {});
    var cmd, i, found := 0, 0, false;
    while i < |argv| && !found
      invariant 0 <= i <= |argv|
      invariant !found ==> Parse(argv, Config([], false, {}), open) == Parse(argv[i..], c, open)
      invariant found ==> i < |argv| && argv[i] == "--" && cmd == i + 1
                          && Parse(argv, Config([], false, {}), open) == Parse(argv[i..], c, open)
      decreases |argv| - i, !found
    {
      var rest := argv[i..];
      if argv[i] == "--" {
        cmd, found := i + 1, true;
      } else if argv[i] == "--net" {
        c := c.(network := true);
        assert rest[1..] == argv[i + 1..];
        i := i + 1;
      } else if argv[i] == "--keep-fd" {
        i := i + 1;
        if i >= |argv| {
          return Err(MissingFd);
        }
        var fd := Strtol(argv[i]);
        if fd.None? || fd.value < 3 || fd.value > 63 || fd.value !in open {
          return Err(InvalidFd);
        }
        c := c.(keep := c.keep + {fd.value});
        i := i + 1;
        assert rest[2..] == argv[i..];
      } else {
        var rights := RuleRights(argv[i]);
        if rights.None? {
          return Err(UnknownOption);
        }
        i := i + 1;
        if i >= |argv| {
          return Err(MissingPath);
        }
        if !IsAbs(argv[i]) {
          return Err(RelativeRule);
        }
        c := c.(rules := c.rules + [LandlockRule(rights.value, argv[i])]);
        i := i + 1;
        assert rest[2..] == argv[i..];
      }
    }
    if !found || cmd >= |argv| || !IsAbs(argv[cmd]) {
      return Err(MissingCommand);
    }
    assert argv[i..][1..] == argv[cmd..];
    c := c.(rules := c.rules + [LandlockRule(ReadExec, argv[cmd])]);
    return Ok((c, argv[cmd..]));
  }

  function RulesOf(rights: Rights, paths: seq<string>): seq<LandlockRule> {
    if paths == [] then [] else [LandlockRule(rights, Trimmed(paths[0]))] + RulesOf(rights, paths[1..])
  }

  lemma ParseRule(argv: seq<string>, c: Config, open: set<int>)
    requires |argv| >= 2 && RuleRights(argv[0]).Some? && IsAbs(argv[1])
    ensures Parse(argv, c, open) == Parse(argv[2..], c.(rules := c.rules + [LandlockRule(RuleRights(argv[0]).value, argv[1])]), open)
  {
  }

  lemma ParseFd(argv: seq<string>, c: Config, open: set<int>, fd: int)
    requires |argv| >= 2 && argv[0] == "--keep-fd" && Strtol(argv[1]) == Some(fd) && FdAccepted(fd) && fd in open
    ensures Parse(argv, c, open) == Parse(argv[2..], c.(keep := c.keep + {fd}), open)
  {
    hide Strtol;
  }

  lemma {:induction false} ParsePathArgs(flag: string, paths: seq<string>, rest: seq<string>, c: Config, open: set<int>)
    requires RuleRights(flag).Some? && AllPaths(paths)
    ensures Parse(PathArgs(flag, paths) + rest, c, open) ==
            Parse(rest, c.(rules := c.rules + RulesOf(RuleRights(flag).value, paths)), open)
    decreases |paths|
  {
    hide Parse;
    if paths == [] {
      assert PathArgs(flag, paths) + rest == rest;
      assert c.rules + [] == c.rules;
    } else {
      var argv := PathArgs(flag, paths) + rest;
      var rights := RuleRights(flag).value;
      var c' := c.(rules := c.rules + [LandlockRule(rights, Trimmed(paths[0]))]);
      assert PathAccepted(paths[0]);
      assert argv[2..] == PathArgs(flag, paths[1..]) + rest;
      ParseRule(argv, c, open);
      ParsePathArgs(flag, paths[1..], rest, c', open);
      assert c'.rules + RulesOf(rights, paths[1..]) == c.rules + RulesOf(rights, paths);
    }
  }

  lemma {:induction false} ParseFdArgs(fds: seq<int>, rest: seq<string>, c: Config, open: set<int>)
    requires AllFds(fds) && forall i | 0 <= i < |fds| :: fds[i] in open
    ensures Parse(FdArgs(fds) + rest, c, open) ==
            Parse(rest, c.(keep := c.keep + set fd | fd in fds), open)
    decreases |fds|
  {
    hide Parse, Strtol, DecInt, Dec;
    if fds == [] {
      assert FdArgs(fds) + rest == rest;
      assert c.keep + (set fd | fd in fds) == c.keep;
    } else {
      var argv := FdArgs(fds) + rest;
      var c' := c.(keep := c.keep + {fds[0]});
      assert FdAccepted(fds[0]);
      StrtolOfDec(fds[0]);
      assert argv[2..] == FdArgs(fds[1..]) + rest;
      ParseFd(argv, c, open, fds[0]);
      ParseFdArgs(fds[1..], rest, c', open);
      assert fds == [fds[0]] + fds[1..];
      assert c'.keep + (set fd | fd in fds[1..]) == c.keep + (set fd | fd in fds);
    }
  }

  /** Everything the policy grants, in order and by kind. */
  function ConfigOf(p: Policy): Config {
    Config(RulesOf(ReadDir, p.read) + RulesOf(Mutate, p.write) + RulesOf(ReadExec, p.execute),
           p.network, set fd | fd in p.keepFd)
  }

  lemma ParsePathGroups(p: Policy, rest: seq<string>, open: set<int>)
    requires AllPaths(p.read) && AllPaths(p.write) && AllPaths(p.execute)
    ensures Parse(PathArgs("--read", p.read) + (PathArgs("--write", p.write) + (PathArgs("--execute", p.execute) + rest)),
                  Config([], false, {}), open)
            == Parse(rest, Config(ConfigOf(p).rules, false, {}), open)
  {
    hide Parse, PathArgs;
    var ex := PathArgs("--execute", p.execute) + rest;
    var wr := PathArgs("--write", p.write) + ex;
    var r1 := [] + RulesOf(ReadDir, p.read);
    var r2 := r1 + RulesOf(Mutate, p.write);
    ParsePathArgs("--read", p.read, wr, Config([], false, {}), open);
    ParsePathArgs("--write", p.write, ex, Config(r1, false, {}), open);
    ParsePathArgs("--execute", p.execute, rest, Config(r2, false, {}), open);
    assert r2 + RulesOf(ReadExec, p.execute) == ConfigOf(p).rules;
  }

  lemma ParseFlags(p: Policy, rules: seq<LandlockRule>, rest: seq<string>, open: set<int>)
    requires AllFds(p.keepFd) && forall i | 0 <= i < |p.keepFd| :: p.keepFd[i] in open
    ensures Parse((if p.network then ["--net"] else []) + (FdArgs(p.keepFd) + rest), Config(rules, false, {}), open)
            == Parse(rest, Config(rules, p.network, set fd | fd in p.keepFd), open)
  {
    var fds := FdArgs(p.keepFd) + rest;
    var net := (if p.network then ["--net"] else []) + fds;
    if p.network {
      assert net[0] == "--net" && net[1..] == fds;
    } else {
      assert net == fds;
    }
    ParseFdArgs(p.keepFd, rest, Config(rules, p.network, {}), open);
    assert {} + (set fd | fd in p.keepFd) == set fd | fd in p.keepFd;
  }

  lemma GroupedOptions(p: Policy, rest: seq<string>)
    ensures Options(p) + rest ==
            PathArgs("--read", p.read) + (PathArgs("--write", p.write) + (PathArgs("--execute", p.execute) +
              ((if p.network then ["--net"] else []) + (FdArgs(p.keepFd) + rest))))
  {
  }

  /** The launcher recovers exactly what the policy printed, and adds the rule for the command. */
  lemma RoundTrip(p: Policy, command: seq<string>, open: set<int>)
    requires Accepted(p, command)
    requires forall i | 0 <= i < |p.keepFd| :: p.keepFd[i] in open
    ensures Parse(Options(p) + (["--"] + command), Config([], false, {}), open) == Ok((WithCommand(ConfigOf(p), command[0]), command))
  {
    var tail := ["--"] + command;
    GroupedOptions(p, tail);
    ParsePathGroups(p, (if p.network then ["--net"] else []) + (FdArgs(p.keepFd) + tail), open);
    ParseFlags(p, ConfigOf(p).rules, tail, open);
    assert tail[0] == "--" && tail[1..] == command && tail[1] == command[0];
  }

  /** A command line stands for one set of rights and one command only. */
  lemma CommandLineIsUnambiguous(p: Policy, command: seq<string>, q: Policy, other: seq<string>)
    requires Accepted(p, command) && Accepted(q, other)
    requires Options(p) + (["--"] + command) == Options(q) + (["--"] + other)
    ensures ConfigOf(p) == ConfigOf(q) && command == other
  {
    var open := (set fd | fd in p.keepFd) + (set fd | fd in q.keepFd);
    RoundTrip(p, command, open);
    RoundTrip(q, other, open);
    var rules := WithCommand(ConfigOf(p), command[0]).rules;
    assert rules[..|rules| - 1] == ConfigOf(p).rules && rules[..|rules| - 1] == ConfigOf(q).rules;
  }
}
