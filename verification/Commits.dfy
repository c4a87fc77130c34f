/** Git commits and ancestry.

    A Git commit is content addressed: its identity fixes its tree and its parents.  A commit
    is therefore modelled as an immutable value that carries its whole history, and ancestry
    does not depend on any repository state: the history can only be appended to.
 */
module Commits {

  datatype Commit = Commit(tree: nat, parents: seq<Commit>)

  /** `git merge-base --is-ancestor a b`: a is b, or an ancestor of one of b's parents. */
  predicate Ancestor(a: Commit, b: Commit)
    decreases b
  {
    a == b || exists i :: 0 <= i < |b.parents| && Ancestor(a, b.parents[i])
  }

  lemma {:induction false} AncestorTransitive(a: Commit, b: Commit, c: Commit)
    requires Ancestor(a, b) && Ancestor(b, c)
    ensures Ancestor(a, c)
    decreases c
  {
    if b != c {
      var i :| 0 <= i < |c.parents| && Ancestor(b, c.parents[i]);
      AncestorTransitive(a, b, c.parents[i]);
    }
  }

  /** The length of the longest history below a commit. */
  ghost function Height(c: Commit): nat
  {
    if c.parents == [] then 0
    else 1 + MaxHeight(c.parents)
  }

  ghost function MaxHeight(cs: seq<Commit>): (h: nat)
    requires |cs| > 0
    ensures forall i :: 0 <= i < |cs| ==> Height(cs[i]) <= h
    decreases cs
  {
    var first := Height(cs[0]);
    if |cs| == 1 then first
    else
      var rest := MaxHeight(cs[1..]);
      assert forall i :: 1 <= i < |cs| ==> cs[i] == cs[1..][i - 1];
      if first < rest then rest else first
  }

  lemma {:induction false} ProperAncestorIsLower(a: Commit, b: Commit)
    requires Ancestor(a, b) && a != b
    ensures Height(a) < Height(b)
    decreases b
  {
    var i :| 0 <= i < |b.parents| && Ancestor(a, b.parents[i]);
    if a != b.parents[i] {
      ProperAncestorIsLower(a, b.parents[i]);
    }
  }

  /** Ancestry is antisymmetric: no commit is a proper ancestor of itself. */
  lemma AncestorAntisymmetric(a: Commit, b: Commit)
    requires Ancestor(a, b) && Ancestor(b, a)
    ensures a == b
  {
    if a != b {
      ProperAncestorIsLower(a, b);
      ProperAncestorIsLower(b, a);
    }
  }

  /** A two-parent merge commit descends from both sides. */
  lemma MergeDescends(tree: nat, ours: Commit, theirs: Commit)
    ensures Ancestor(ours, Commit(tree, [ours, theirs]))
    ensures Ancestor(theirs, Commit(tree, [ours, theirs]))
  {
    var m := Commit(tree, [ours, theirs]);
    assert Ancestor(ours, m.parents[0]);
    assert Ancestor(theirs, m.parents[1]);
  }
}
