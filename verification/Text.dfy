/** Strings ordered by code point, and the ascending enumeration of a finite set of strings. */
module Text {

  /** Strictly before in code point order, as Python compares strings. */
  predicate Before(a: string, b: string)
  {
    b != [] && (a == [] || a[0] < b[0] || (a[0] == b[0] && Before(a[1..], b[1..])))
  }

  lemma {:induction false} BeforeTransitive(a: string, b: string, c: string)
    requires Before(a, b) && Before(b, c)
    ensures Before(a, c)
  {
    if a != [] && a[0] == b[0] == c[0] {
      BeforeTransitive(a[1..], b[1..], c[1..]);
    }
  }

  lemma {:induction false} BeforeTotal(a: string, b: string)
    ensures a == b || Before(a, b) || Before(b, a)
    ensures !(Before(a, b) && Before(b, a))
    ensures !Before(a, a)
  {
    if a != [] && b != [] && a[0] == b[0] {
      BeforeTotal(a[1..], b[1..]);
      assert a[1..] == b[1..] ==> a == [a[0]] + a[1..] == [b[0]] + b[1..] == b;
    }
    if a != [] {
      BeforeTotal(a[1..], a[1..]);
    }
  }

  /** Code point order is decided at the first difference: a is before b if and only if it is a proper prefix of b or
      has the smaller code point where they first differ. */
  lemma {:induction false} BeforeIff(a: string, b: string)
    ensures Before(a, b) <==>
              a < b || exists k :: 0 <= k < |a| && k < |b| && a[..k] == b[..k] && (a[k] as int) < (b[k] as int)
  {
    if b != [] && a != [] && a[0] == b[0] {
      BeforeIff(a[1..], b[1..]);
      SameHead(a, b);
    } else if b != [] && a != [] {
      assert a[..0] == b[..0];
      forall k | 0 < k < |a| && k < |b|
        ensures a[..k] != b[..k]
      {
        assert a[..k][0] == a[0] && b[..k][0] == b[0];
      }
    }
  }

  lemma SameHead(a: string, b: string)
    requires a != [] && b != [] && a[0] == b[0]
    ensures a[1..] < b[1..] <==> a < b
    ensures (exists k :: 0 <= k < |a| && k < |b| && a[..k] == b[..k] && (a[k] as int) < (b[k] as int)) <==>
            (exists k :: 0 <= k < |a[1..]| && k < |b[1..]| && a[1..][..k] == b[1..][..k] && (a[1..][k] as int) < (b[1..][k] as int))
  {
    assert a == [a[0]] + a[1..] && b == [b[0]] + b[1..];
    forall k | 0 <= k < |a| - 1 && k < |b| - 1
      ensures a[1..][..k] == b[1..][..k] <==> a[..k + 1] == b[..k + 1]
      ensures a[1..][k] == a[k + 1] && b[1..][k] == b[k + 1]
    {
      assert a[..k + 1] == [a[0]] + a[1..][..k] && b[..k + 1] == [b[0]] + b[1..][..k];
      assert a[..k + 1][1..] == a[1..][..k] && b[..k + 1][1..] == b[1..][..k];
    }
    if k :| 0 <= k < |a| && k < |b| && a[..k] == b[..k] && (a[k] as int) < (b[k] as int) {
      assert k > 0;
      assert a[1..][..k - 1] == b[1..][..k - 1] && (a[1..][k - 1] as int) < (b[1..][k - 1] as int);
    }
    if k :| 0 <= k < |a[1..]| && k < |b[1..]| && a[1..][..k] == b[1..][..k] && (a[1..][k] as int) < (b[1..][k] as int) {
      assert a[..k + 1] == b[..k + 1] && (a[k + 1] as int) < (b[k + 1] as int);
    }
  }

  predicate Least(k: string, ks: set<string>)
  {
    k in ks && forall j :: j in ks && j != k ==> Before(k, j)
  }

  lemma {:induction false} HasLeast(ks: set<string>) returns (k: string)
    requires ks != {}
    ensures Least(k, ks)
    decreases |ks|
  {
    var j :| j in ks;
    if ks == {j} {
      k := j;
    } else {
      assert ks - {j} != {};
      var rest := HasLeast(ks - {j});
      BeforeTotal(j, rest);
      if Before(j, rest) {
        k := j;
        forall i | i in ks && i != k
          ensures Before(k, i)
        {
          if i != rest {
            BeforeTransitive(j, rest, i);
          }
        }
      } else {
        k := rest;
      }
    }
  }

  lemma LeastUnique(ks: set<string>)
    ensures forall a, b :: Least(a, ks) && Least(b, ks) ==> a == b
  {
    forall a, b | Least(a, ks) && Least(b, ks)
      ensures a == b
    {
      BeforeTotal(a, b);
    }
  }

  ghost predicate Ascending(s: seq<string>)
  {
    forall i, j :: 0 <= i < j < |s| ==> Before(s[i], s[j])
  }

  function Elements(s: seq<string>): set<string>
  {
    set x | x in s
  }

  /** `sorted(ks)`. */
  function Sorted(ks: set<string>): (s: seq<string>)
    ensures Elements(s) == ks
    ensures Ascending(s)
    decreases |ks|
  {
    if ks == {} then []
    else
      assert exists k :: Least(k, ks) by { var k := HasLeast(ks); }
      LeastUnique(ks);
      var k :| Least(k, ks);
      var rest := Sorted(ks - {k});
      SortedStep(ks, k, rest);
      [k] + rest
  }

  lemma SortedStep(ks: set<string>, k: string, rest: seq<string>)
    requires Least(k, ks) && Elements(rest) == ks - {k} && Ascending(rest)
    ensures Elements([k] + rest) == ks && Ascending([k] + rest)
  {
    assert Elements([k] + rest) == {k} + Elements(rest);
    forall i, j | 0 <= i < j < |rest| + 1
      ensures Before(([k] + rest)[i], ([k] + rest)[j])
    {
      assert rest[j - 1] in Elements(rest);
    }
  }

  /** An ascending sequence is determined by its elements. */
  lemma {:induction false} AscendingUnique(s: seq<string>, t: seq<string>)
    requires Ascending(s) && Ascending(t) && Elements(s) == Elements(t)
    ensures s == t
  {
    assert t != [] ==> t[0] in Elements(t);
    assert s != [] ==> s[0] in Elements(s);
    if s != [] {
      assert s[0] in t && t[0] in s;
      SameFirst(s, t);
      TailElements(s);
      TailElements(t);
      AscendingUnique(s[1..], t[1..]);
      assert s == [s[0]] + s[1..] && t == [t[0]] + t[1..];
    }
  }

  lemma FirstIsLeast(s: seq<string>, x: string)
    requires Ascending(s) && x in s
    ensures s[0] == x || Before(s[0], x)
  {
  }

  lemma SameFirst(s: seq<string>, t: seq<string>)
    requires Ascending(s) && Ascending(t) && s != [] && t != [] && s[0] in t && t[0] in s
    ensures s[0] == t[0]
  {
    FirstIsLeast(s, t[0]);
    FirstIsLeast(t, s[0]);
    BeforeTotal(s[0], t[0]);
  }

  lemma TailElements(s: seq<string>)
    requires Ascending(s) && s != []
    ensures Ascending(s[1..]) && Elements(s[1..]) == Elements(s) - {s[0]}
  {
    BeforeTotal(s[0], s[0]);
    assert s == [s[0]] + s[1..];
    forall x | x in s[1..]
      ensures x != s[0]
    {
      var i :| 0 <= i < |s[1..]| && s[1..][i] == x;
      assert s[i + 1] == x && Before(s[0], s[i + 1]);
    }
  }

  lemma AscendingDistinct(s: seq<string>)
    requires Ascending(s)
    ensures forall i, j :: 0 <= i < j < |s| ==> s[i] != s[j]
  {
    forall i, j | 0 <= i < j < |s|
      ensures s[i] != s[j]
    {
      BeforeTotal(s[i], s[i]);
    }
  }
}
