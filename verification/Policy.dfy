/**
 * Capability grants, attenuation chains and the rule evaluator.
 */
module Policy {
  import opened Wrappers
  import opened Text
  import opened Paths

  datatype Grant = Grant(resource: string, action: string)

  const RECURSIVE := "/**"

  /** Whether everything `child` names is already named by `parent`. */
  predicate GrantContains(parent: Grant, child: Grant) {
    if parent.resource != child.resource then false
    else if parent.action == child.action || parent.action == "*" then true
    else if HasSuffix(parent.action, RECURSIVE) then
      var base := TrimSuffix(parent.action, RECURSIVE);
      IsAbs(child.action) && IsClean(child.action)
      && (child.action == base || HasPrefix(child.action, base + "/"))
    else false
  }

  /**
   * A grant that can be narrowed into something wider than itself: its base
   * path is a usable path that is itself a recursive pattern.
   */
  predicate Reopens(g: Grant) {
    HasSuffix(g.action, RECURSIVE)
    && var base := TrimSuffix(g.action, RECURSIVE);
       HasSuffix(base, RECURSIVE) && IsAbs(base) && IsClean(base)
  }

  /** Narrowing twice is narrowing once. */
  lemma ContainsTransitive(p: Grant, c: Grant, a: Grant)
    requires !Reopens(p) && GrantContains(p, c) && GrantContains(c, a)
    ensures GrantContains(p, a)
  {
    if p.action != c.action && p.action != "*" && a.action != c.action {
      var base := TrimSuffix(p.action, RECURSIVE);
      assert c.action != "*";
      var inner := TrimSuffix(c.action, RECURSIVE);
      assert c.action == inner + RECURSIVE;
      assert base != c.action;
      BaseIsPrefix(base, inner);
      if |base| < |inner| {
        assert HasPrefix(inner, base + "/");
      }
    }
  }

  lemma BaseIsPrefix(base: string, inner: string)
    requires HasPrefix(inner + RECURSIVE, base + "/")
    ensures base == inner || HasPrefix(inner, base + "/")
  {
    var c := inner + RECURSIVE;
    assert c[|base|] == (base + "/")[|base|] == '/';
    assert c[|inner| + 1] == '*' && c[|inner| + 2] == '*';
    assert |base| <= |inner|;
    assert base == (base + "/")[..|base|] == c[..|base|] == inner[..|base|];
    if |base| < |inner| {
      assert base + "/" == c[..|base| + 1] == inner[..|base| + 1];
    }
  }

  /** What goes wrong with a reopening grant: two narrowings that widen it. */
  lemma ReopeningWitness(p: Grant) returns (c: Grant, a: Grant)
    requires Reopens(p)
    ensures GrantContains(p, c) && GrantContains(c, a) && !GrantContains(p, a)
  {
    var base := TrimSuffix(p.action, RECURSIVE);
    var inner := TrimSuffix(base, RECURSIVE);
    assert p.action == base + RECURSIVE && base == inner + RECURSIVE;
    c := Grant(p.resource, base);
    if inner == "" {
      a := Grant(p.resource, "/");
    } else {
      assert base == inner + "/" + "**";
      CleanParent(inner, "**");
      a := Grant(p.resource, inner);
    }
  }

  ghost predicate NarrowsOnly(p: Grant) {
    forall c, a :: GrantContains(p, c) && GrantContains(c, a) ==> GrantContains(p, a)
  }

  /** Narrowing is safe for exactly the grants that do not reopen. */
  lemma NarrowsExactly(p: Grant)
    ensures NarrowsOnly(p) <==> !Reopens(p)
  {
    if Reopens(p) {
      var c, a := ReopeningWitness(p);
    } else {
      forall c, a | GrantContains(p, c) && GrantContains(c, a)
        ensures GrantContains(p, a)
      {
        ContainsTransitive(p, c, a);
      }
    }
  }

  datatype Token = Token(
    issuer: string, subject: string, expiresAt: int, publicKey: string,
    grants: seq<Grant>, caveats: seq<string>, signature: string)
  {
    /** Membership view of `Allows`. */
    predicate Permits(resource: string, action: string) {
      exists g :: g in grants && g.resource == resource && GrantContains(g, Grant(resource, action))
    }
  }

  predicate Covered(parents: seq<Grant>, g: Grant) {
    exists p :: p in parents && GrantContains(p, g)
  }

  /** The candidates that some parent grant covers, in the order asked for. */
  function Kept(parents: seq<Grant>, wanted: seq<Grant>): (r: seq<Grant>)
    ensures forall g :: g in r <==> g in wanted && Covered(parents, g)
  {
    if wanted == [] then []
    else
      var rest := Kept(parents, wanted[..|wanted| - 1]);
      var last := wanted[|wanted| - 1];
      if Covered(parents, last) then rest + [last] else rest
  }

  method Allows(t: Token, resource: string, action: string) returns (r: bool)
    ensures r <==> t.Permits(resource, action)
  {
    for i := 0 to |t.grants|
      invariant forall j | 0 <= j < i ::
                  !(t.grants[j].resource == resource && GrantContains(t.grants[j], Grant(resource, action)))
    {
      if t.grants[i].resource == resource && GrantContains(t.grants[i], Grant(resource, action)) {
        return true;
      }
    }
    return false;
  }

  datatype AttenuateError = NotVerified | InvalidAttenuation | NothingLeft

  /**
   * Re-signs `t` with one more caveat. `verified` and `sameKey` are the
   * signature checks; `sign` is the issuer's signing function.
   */
  method Attenuate(t: Token, verified: bool, sameKey: bool, caveat: string, wanted: seq<Grant>,
                   sign: Token -> string)
    returns (r: Result<Token, AttenuateError>)
    ensures r.Ok? <==> verified && sameKey && caveat != "" && exists g :: g in wanted && Covered(t.grants, g)
    ensures r.Ok? ==> Derived(t, r.value) && r.value.grants == Kept(t.grants, wanted)
                      && r.value.caveats == t.caveats + [caveat]
    ensures r == Err(NotVerified) <==> !verified
  {
    if !verified {
      return Err(NotVerified);
    }
    if caveat == "" || wanted == [] || !sameKey {
      return Err(InvalidAttenuation);
    }
    var allowed: seq<Grant> := [];
    for i := 0 to |wanted|
      invariant allowed == Kept(t.grants, wanted[..i])
    {
      assert wanted[..i + 1][..i] == wanted[..i];
      var covered := false;
      for j := 0 to |t.grants|
        invariant !covered
        invariant forall k | 0 <= k < j :: !GrantContains(t.grants[k], wanted[i])
      {
        if GrantContains(t.grants[j], wanted[i]) {
          covered := true;
          break;
        }
      }
      if covered {
        allowed := allowed + [wanted[i]];
      }
    }
    assert wanted[..|wanted|] == wanted;
    if allowed == [] {
      return Err(NothingLeft);
    }
    assert allowed[0] in Kept(t.grants, wanted);
    var child := t.(grants := allowed, caveats := t.caveats + [caveat], signature := "");
    child := child.(signature := sign(child));
    assert child.caveats[|t.caveats|] == caveat;
    return Ok(child);
  }

  /** One attenuation edge: same identity, one more caveat, only covered grants. */
  ghost predicate Derived(p: Token, c: Token) {
    && c.issuer == p.issuer && c.subject == p.subject
    && c.expiresAt == p.expiresAt && c.publicKey == p.publicKey
    && |c.caveats| == |p.caveats| + 1 && p.caveats <= c.caveats
    && forall g :: g in c.grants ==> Covered(p.grants, g)
  }

  /** Each token is an attenuation of the one before it. */
  ghost predicate Chain(ts: seq<Token>) {
    forall i | 0 <= i < |ts| - 1 :: Link(ts, i)
  }

  ghost predicate Link(ts: seq<Token>, i: nat)
    requires i + 1 < |ts|
  {
    Derived(ts[i], ts[i + 1])
  }

  // ---- Which tokens never widen ----

  /** What a grant can be narrowed into at its widest: recursive suffixes come off until it no longer reopens. */
  function Opened(g: Grant): (o: Grant)
    ensures !Reopens(o) && o.resource == g.resource && |o.action| <= |g.action|
    ensures Reopens(g) ==> Rooted(o) && |o.action| < |g.action|
    decreases |g.action|
  {
    if Reopens(g) then
      var base := Grant(g.resource, TrimSuffix(g.action, RECURSIVE));
      if Reopens(base) then Opened(base) else BaseIsRooted(g); base
    else g
  }

  /** A recursive grant whose own text is a clean path and whose base is not recursive. */
  predicate Rooted(g: Grant) {
    && HasSuffix(g.action, RECURSIVE) && IsAbs(g.action) && IsClean(g.action)
    && !HasSuffix(TrimSuffix(g.action, RECURSIVE), RECURSIVE)
  }

  lemma BaseIsRooted(g: Grant)
    requires Reopens(g) && !Reopens(Grant(g.resource, TrimSuffix(g.action, RECURSIVE)))
    ensures Rooted(Grant(g.resource, TrimSuffix(g.action, RECURSIVE)))
  {
    var base := TrimSuffix(g.action, RECURSIVE);
    var inner := TrimSuffix(base, RECURSIVE);
    if HasSuffix(inner, RECURSIVE) {
      assert base == inner + "/" + "**";
      CleanParent(inner, "**");
    }
  }

  /** Whatever a grant contains, its opened form contains. */
  lemma {:induction false} OpenedContains(g: Grant, c: Grant)
    requires GrantContains(g, c)
    ensures GrantContains(Opened(g), c)
    decreases |g.action|
  {
    if Reopens(g) {
      var base := Grant(g.resource, TrimSuffix(g.action, RECURSIVE));
      BaseContains(g, c);
      if Reopens(base) {
        OpenedContains(base, c);
      }
    }
  }

  lemma BaseContains(g: Grant, c: Grant)
    requires Reopens(g) && GrantContains(g, c)
    ensures GrantContains(Grant(g.resource, TrimSuffix(g.action, RECURSIVE)), c)
  {
    var base := TrimSuffix(g.action, RECURSIVE);
    var inner := TrimSuffix(base, RECURSIVE);
    assert g.action == base + RECURSIVE && base == inner + RECURSIVE;
    if c.action == g.action {
      assert c.action == base + "/" + "**";
      SplitWord("**");
      CleanChild(base, "**");
    }
    if c.action != base {
      assert HasPrefix(c.action, base + "/");
      assert (base + "/")[..|inner| + 1] == inner + "/";
    }
  }

  /** Each grant that reopens lies within another grant of the token that does not. */
  ghost predicate Settled(t: Token) {
    forall g {:trigger Opened(g)} | g in t.grants && Reopens(g) :: Shelters(t, Opened(g))
  }

  ghost predicate Shelters(t: Token, g: Grant) {
    exists p :: p in t.grants && !Reopens(p) && GrantContains(p, g)
  }

  lemma SettledShelters(t: Token, g: Grant)
    requires Settled(t) && g in t.grants
    ensures Shelters(t, g)
  {
    if Reopens(g) {
      OpenedContains(g, g);
      var p :| p in t.grants && !Reopens(p) && GrantContains(p, Opened(g));
      ContainsTransitive(p, Opened(g), g);
    } else {
      assert GrantContains(g, g);
    }
  }

  /** Every grant of a descendant lies within a grant of the ancestor that does not reopen. */
  lemma {:induction false} ChainShelters(ts: seq<Token>, i: nat, j: nat, g: Grant)
    requires Chain(ts) && i <= j < |ts| && Settled(ts[i]) && g in ts[j].grants
    ensures Shelters(ts[i], g)
    decreases j - i
  {
    if i == j {
      SettledShelters(ts[i], g);
    } else {
      assert Link(ts, j - 1);
      var h :| h in ts[j - 1].grants && GrantContains(h, g);
      ChainShelters(ts, i, j - 1, h);
      var p :| p in ts[i].grants && !Reopens(p) && GrantContains(p, h);
      ContainsTransitive(p, h, g);
    }
  }

  /**
   * Whatever a descendant allows, a settled ancestor allows, whatever the
   * tokens between them grant.
   */
  lemma ChainNarrows(ts: seq<Token>, i: nat, j: nat, resource: string, action: string)
    requires Chain(ts) && i <= j < |ts| && Settled(ts[i])
    requires ts[j].Permits(resource, action)
    ensures ts[i].Permits(resource, action)
  {
    var ask := Grant(resource, action);
    var g :| g in ts[j].grants && g.resource == resource && GrantContains(g, ask);
    ChainShelters(ts, i, j, g);
    var p :| p in ts[i].grants && !Reopens(p) && GrantContains(p, g);
    ContainsTransitive(p, g, ask);
  }

  /** The token narrowed to one of the grants it covers. */
  function Narrowed(t: Token, g: Grant): Token { t.(grants := [g], caveats := t.caveats + ["narrowed"]) }

  lemma NarrowedDerives(t: Token, g: Grant)
    requires Covered(t.grants, g)
    ensures Derived(t, Narrowed(t, g))
  {
  }

  /** A chain that narrows a reopening grant down to its opened form. */
  lemma {:induction false} OpeningChain(t: Token, g: Grant) returns (ts: seq<Token>)
    requires g in t.grants && Reopens(g)
    ensures |ts| > 1 && Chain(ts) && ts[0] == t && ts[|ts| - 1].grants == [Opened(g)]
    decreases |g.action|
  {
    var base := Grant(g.resource, TrimSuffix(g.action, RECURSIVE));
    assert GrantContains(g, base);
    var child := Narrowed(t, base);
    NarrowedDerives(t, base);
    if Reopens(base) {
      var rest := OpeningChain(child, base);
      ts := [t] + rest;
      forall i | 0 <= i < |ts| - 1
        ensures Link(ts, i)
      {
        assert i > 0 ==> Link(rest, i - 1);
      }
    } else {
      ts := [t, child];
    }
  }

  /** No chain from the token allows anything the token does not. */
  ghost predicate NeverWidens(t: Token) {
    forall ts, resource, action | Reaches(t, ts, resource, action) :: t.Permits(resource, action)
  }

  /** A chain from the token ends in one that allows the action. */
  ghost predicate Reaches(t: Token, ts: seq<Token>, resource: string, action: string) {
    Chain(ts) && ts != [] && ts[0] == t && ts[|ts| - 1].Permits(resource, action)
  }

  function Longest(gs: seq<Grant>): (n: nat)
    ensures forall g | g in gs :: |g.action| <= n
  {
    if gs == [] then 0
    else
      var n, last := Longest(gs[..|gs| - 1]), |gs[|gs| - 1].action|;
      if n < last then last else n
  }

  function Exes(n: nat): (s: string)
    ensures |s| == n && forall c | c in s :: c == 'x'
  {
    if n == 0 then "" else "x" + Exes(n - 1)
  }

  lemma ExesPlain(n: nat)
    requires n > 0
    ensures Split(Exes(n)) == [Exes(n)] && Plain(Exes(n))
  {
    SplitWord(Exes(n));
    assert Exes(n)[0] == 'x';
  }

  /** A path below a rooted grant's base with a component longer than any grant of the token. */
  lemma FreshBelow(o: Grant, n: nat) returns (a: string)
    requires Rooted(o) && n > 0
    ensures GrantContains(o, Grant(o.resource, a))
    ensures a == TrimSuffix(o.action, RECURSIVE) + "/" + Exes(n)
  {
    var root := TrimSuffix(o.action, RECURSIVE);
    assert o.action == root + "/" + "**";
    hide IsClean, Split, Exes, Plain;
    ExesPlain(n);
    RootIsUsable(root, "**");
    CleanChild(root, Exes(n));
    a := root + "/" + Exes(n);
    assert HasPrefix(a, root + "/");
  }

  /** Only a grant above the root reaches such a path. */
  lemma FreshNeeds(o: Grant, q: Grant, n: nat)
    requires Rooted(o) && |q.action| < n && q.action != "*"
    requires GrantContains(q, Grant(o.resource, TrimSuffix(o.action, RECURSIVE) + "/" + Exes(n)))
    ensures HasSuffix(q.action, RECURSIVE) && GrantContains(q, o)
    ensures Reopens(q) ==> |q.action| <= |o.action|
  {
    var root := TrimSuffix(o.action, RECURSIVE);
    var a := root + "/" + Exes(n);
    var base := TrimSuffix(q.action, RECURSIVE);
    assert o.action == root + RECURSIVE;
    assert HasPrefix(a, base + "/");
    NoDeeper(root, base, n);
    if base != root {
      assert (root + RECURSIVE)[..|base| + 1] == root[..|base| + 1];
    } else {
      assert (root + RECURSIVE)[..|root| + 1] == root + "/";
    }
  }

  lemma ExesAfter(root: string, n: nat, i: nat)
    requires i < |root| + 1 + n
    ensures i > |root| ==> (root + "/" + Exes(n))[i] == 'x'
  {
    if i > |root| {
      assert (root + "/" + Exes(n))[i] == Exes(n)[i - |root| - 1];
      assert Exes(n)[i - |root| - 1] in Exes(n);
    }
  }

  lemma NoDeeper(root: string, base: string, n: nat)
    requires HasPrefix(root + "/" + Exes(n), base + "/")
    ensures base == root || HasPrefix(root, base + "/")
  {
    var a := root + "/" + Exes(n);
    assert a[|base|] == (base + "/")[|base|] == '/';
    ExesAfter(root, n, |base|);
    assert base == (base + "/")[..|base|] == a[..|base|] == root[..|base|];
    if |base| < |root| {
      assert base + "/" == a[..|base| + 1] == root[..|base| + 1];
    }
  }

  /** A token that never widens shelters what its reopening grants open into. */
  lemma {:induction false} MustShelter(t: Token, g: Grant)
    requires NeverWidens(t) && g in t.grants && Reopens(g)
    ensures Shelters(t, Opened(g))
    decreases |Opened(g).action|
  {
    var o := Opened(g);
    var n := Longest(t.grants) + 1;
    var ts := OpeningChain(t, g);
    var a := FreshBelow(o, n);
    var ask := Grant(o.resource, a);
    assert o in ts[|ts| - 1].grants;
    assert ts[|ts| - 1].Permits(o.resource, a);
    assert Reaches(t, ts, o.resource, a);
    var q :| q in t.grants && q.resource == o.resource && GrantContains(q, ask);
    if q.action != "*" {
      FreshNeeds(o, q, n);
      if Reopens(q) {
        MustShelter(t, q);
        OpenedContains(q, o);
        var p :| p in t.grants && !Reopens(p) && GrantContains(p, Opened(q));
        ContainsTransitive(p, Opened(q), o);
      }
    }
  }

  /** The chains of a token only narrow exactly if the token is settled. */
  lemma ChainsNarrowExactly(t: Token)
    ensures NeverWidens(t) <==> Settled(t)
  {
    hide Reopens, GrantContains, Opened;
    if NeverWidens(t) {
      forall g | g in t.grants && Reopens(g)
        ensures Shelters(t, Opened(g))
      {
        MustShelter(t, g);
      }
    }
    if Settled(t) {
      forall ts, resource, action | Reaches(t, ts, resource, action)
        ensures t.Permits(resource, action)
      {
        ChainNarrows(ts, 0, |ts| - 1, resource, action);
      }
    }
  }

  /** A grant that reopens: it does not allow "/a", but a grant it contains does. */
  lemma ReopeningExample(t: Token)
    requires t.grants == [Grant("file", "/a/**/**")]
    ensures !t.Permits("file", "/a") && !Settled(t) && !NeverWidens(t)
    ensures Derived(t, Narrowed(t, Grant("file", "/a/**"))) && Narrowed(t, Grant("file", "/a/**")).Permits("file", "/a")
  {
    hide Opened;
    var g, c, a := Grant("file", "/a/**/**"), Grant("file", "/a/**"), Grant("file", "/a");
    assert TrimSuffix(g.action, RECURSIVE) == "/a/**" && TrimSuffix(c.action, RECURSIVE) == "/a";
    SplitWord("a");
    SplitWord("**");
    assert IsClean("/a") by { assert "/a"[1..] == "a"; }
    assert "/a/**" == "/a" + "/" + "**";
    CleanChild("/a", "**");
    assert GrantContains(g, c) && GrantContains(c, a) && !GrantContains(g, a);
    assert g in t.grants && Reopens(g);
    NarrowedDerives(t, c);
    var d := Narrowed(t, c);
    assert c in d.grants && d.Permits("file", "/a");
    var ts := [t, d];
    assert Link(ts, 0) && Chain(ts) && ts[|ts| - 1] == d && Reaches(t, ts, "file", "/a");
    ChainsNarrowExactly(t);
  }

  /** Down a chain the caveat list grows by one and keeps its prefix. */
  lemma {:induction false} ChainCaveats(ts: seq<Token>, i: nat, j: nat)
    requires Chain(ts) && i <= j < |ts|
    ensures ts[i].caveats <= ts[j].caveats && |ts[j].caveats| == |ts[i].caveats| + (j - i)
    ensures ts[i].subject == ts[j].subject && ts[i].publicKey == ts[j].publicKey
    decreases j - i
  {
    if i < j {
      ChainCaveats(ts, i, j - 1);
      assert Link(ts, j - 1);
    }
  }

  datatype Effect = Permit | Forbid | Unknown

  datatype Rule = Rule(effect: Effect, principal: string, resource: string, action: string) {
    predicate Matches(p: string, o: string, a: string) {
      (principal == "*" || principal == p) && (resource == "*" || resource == o) &&
      (action == "*" || action == a || GrantContains(Grant("", action), Grant("", a)))
    }
  }

  /** Deny overrides: rule order never matters. */
  method Evaluate(rules: seq<Rule>, p: string, o: string, a: string) returns (allowed: bool)
    ensures allowed <==>
            && (exists r :: r in rules && r.effect == Permit && r.Matches(p, o, a))
            && !(exists r :: r in rules && r.effect == Forbid && r.Matches(p, o, a))
  {
    allowed := false;
    for i := 0 to |rules|
      invariant forall r :: r in rules[..i] && r.Matches(p, o, a) ==> r.effect != Forbid
      invariant allowed <==> exists r :: r in rules[..i] && r.effect == Permit && r.Matches(p, o, a)
    {
      var rule := rules[i];
      assert rules[..i + 1] == rules[..i] + [rule];
      if rule.Matches(p, o, a) {
        if rule.effect == Forbid {
          return false;
        }
        if rule.effect == Permit {
          allowed := true;
        }
      }
    }
    assert rules[..|rules|] == rules;
  }
}
