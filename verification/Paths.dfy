/**
 * The parts of Unix path handling the policy checks rely on.
 */
module Paths {

  predicate IsAbs(p: string) { p != "" && p[0] == '/' }

  /** The components between slashes; the empty text has one empty component. */
  function Split(s: string): (cs: seq<string>)
    ensures cs != []
  {
    if s == "" then [""]
    else if s[0] == '/' then [""] + Split(s[1..])
    else var cs := Split(s[1..]); [[s[0]] + cs[0]] + cs[1..]
  }

  /** A text without a slash is one component. */
  lemma {:induction false} SplitWord(s: string)
    requires '/' !in s
    ensures Split(s) == [s]
  {
    if s != "" {
      SplitWord(s[1..]);
      assert s == [s[0]] + s[1..];
    }
  }

  predicate Plain(c: string) { c != "" && c != "." && c != ".." }

  /** `filepath.Clean(p) == p` for an absolute path. */
  predicate IsClean(p: string)
    requires IsAbs(p)
  {
    p == "/" || forall c | c in Split(p[1..]) :: Plain(c)
  }

  lemma {:induction false} SplitJoin(a: string, b: string)
    ensures Split(a + "/" + b) == Split(a) + Split(b)
  {
    var s := a + "/" + b;
    if a == "" {
      assert s[1..] == b;
    } else {
      assert s[1..] == a[1..] + "/" + b;
      SplitJoin(a[1..], b);
    }
  }

  /** Dropping the last component of a clean path leaves a clean path. */
  lemma CleanParent(a: string, b: string)
    requires IsAbs(a + "/" + b) && IsClean(a + "/" + b) && a != ""
    ensures IsAbs(a) && IsClean(a)
  {
    var p := a + "/" + b;
    assert p[0] == a[0];
    assert p[1..] == a[1..] + "/" + b;
    SplitJoin(a[1..], b);
    assert p != "/";
    forall c | c in Split(a[1..])
      ensures Plain(c)
    {
      assert c in Split(p[1..]);
    }
  }

  /** A path below which components can be added: the root as the empty text, or a clean path. */
  predicate Usable(a: string) { a == "" || (IsAbs(a) && IsClean(a) && a != "/") }

  lemma RootIsUsable(a: string, b: string)
    requires IsAbs(a + "/" + b) && IsClean(a + "/" + b) && b != ""
    ensures Usable(a)
  {
    if a != "" {
      CleanParent(a, b);
      if a == "/" {
        assert (a + "/" + b)[1..] == "" + "/" + b;
        SplitJoin("", b);
        assert "" in Split((a + "/" + b)[1..]);
      }
    }
  }

  /** Adding a plain component to a clean path leaves a clean path. */
  lemma CleanChild(a: string, b: string)
    requires Usable(a) && Split(b) == [b] && Plain(b)
    ensures IsAbs(a + "/" + b) && IsClean(a + "/" + b)
  {
    var p := a + "/" + b;
    if a == "" {
      assert p[1..] == b;
    } else {
      assert p[1..] == a[1..] + "/" + b;
      SplitJoin(a[1..], b);
    }
  }
}
