// Option, Result and the strictly increasing integer lists in which room keys
// and message ids are kept.
module Wrappers {

  datatype Option<+T> = None | Some(value: T)

  datatype Result<+T, +E> = Ok(value: T) | Err(error: E)
}

module Ordered {

  predicate StrictlyIncreasing(s: seq<int>) {
    forall i, j :: 0 <= i < j < |s| ==> s[i] < s[j]
  }

  function Elements(s: seq<int>): set<int> {
    set x | x in s
  }

  /** A finite set of integers has a greatest member. */
  lemma {:induction false} HasMaximum(s: set<int>)
    requires s != {}
    ensures exists m :: m in s && forall x :: x in s ==> x <= m
  {
    assert (forall y :: y !in s) ==> s == {};
    var y :| y in s;
    var rest := s - {y};
    if rest == {} {
      assert forall x :: x in s ==> x in rest || x == y;
    } else {
      HasMaximum(rest);
      var m :| m in rest && forall x :: x in rest ==> x <= m;
      var top := if m < y then y else m;
      assert forall x :: x in s ==> x in rest || x == y;
      assert top in s && forall x :: x in s ==> x <= top;
    }
  }

  lemma AppendMaximum(prefix: seq<int>, s: set<int>, m: int)
    requires StrictlyIncreasing(prefix) && Elements(prefix) == s - {m}
    requires m in s && forall x :: x in s ==> x <= m
    ensures StrictlyIncreasing(prefix + [m])
    ensures Elements(prefix + [m]) == s
  {
    var r := prefix + [m];
    forall i | 0 <= i < |prefix| ensures prefix[i] < m {
      assert prefix[i] in Elements(prefix);
    }
    forall x ensures x in Elements(r) <==> x in s {
      assert x in r <==> x in prefix || x == m;
      assert x in prefix <==> x in Elements(prefix);
    }
  }

  lemma MembersOfElements(s: seq<int>, x: int)
    ensures x in s <==> x in Elements(s)
  {
  }

  /** A strictly increasing list is determined by its members. */
  lemma {:induction false} IncreasingUnique(a: seq<int>, b: seq<int>)
    requires StrictlyIncreasing(a) && StrictlyIncreasing(b)
    requires Elements(a) == Elements(b)
    ensures a == b
    decreases |a|
  {
    if a == [] {
      assert forall i :: 0 <= i < |b| ==> b[i] in Elements(b);
    } else {
      assert a[|a| - 1] in Elements(b);
      var x, y := a[|a| - 1], b[|b| - 1];
      assert y in Elements(a);
      assert x == y;
      var a', b' := a[..|a| - 1], b[..|b| - 1];
      forall v ensures v in Elements(a') <==> v in Elements(b') {
        assert v in Elements(a) <==> v in Elements(b);
        assert v in a <==> v in a' || v == x;
        assert v in b <==> v in b' || v == x;
      }
      IncreasingUnique(a', b');
      assert a == a' + [x] && b == b' + [x];
    }
  }

  lemma {:induction false} AscendingExists(s: set<int>)
    ensures exists r :: StrictlyIncreasing(r) && Elements(r) == s
  {
    if s == {} {
      assert StrictlyIncreasing([]) && Elements([]) == s;
    } else {
      HasMaximum(s);
      var m :| m in s && forall x :: x in s ==> x <= m;
      AscendingExists(s - {m});
      var prefix :| StrictlyIncreasing(prefix) && Elements(prefix) == s - {m};
      AppendMaximum(prefix, s, m);
      assert StrictlyIncreasing(prefix + [m]) && Elements(prefix + [m]) == s;
    }
  }

  /** The members of `s` in ascending order. */
  ghost function Ascending(s: set<int>): (r: seq<int>)
    ensures StrictlyIncreasing(r)
    ensures Elements(r) == s
  {
    AscendingExists(s);
    var r :| StrictlyIncreasing(r) && Elements(r) == s;
    r
  }

  /** What `SELECT ... ORDER BY` yields: take the greatest remaining member
      until none is left. */
  method OrderBy(s: set<int>) returns (r: seq<int>)
    ensures r == Ascending(s)
  {
    var rest := s;
    r := [];
    while rest != {}
      invariant rest <= s
      invariant StrictlyIncreasing(r) && Elements(r) == s - rest
      invariant forall x, y :: x in rest && y in r ==> x < y
      decreases rest
    {
      HasMaximum(rest);
      var m :| m in rest && forall x :: x in rest ==> x <= m;
      PrependMinimum(r, m);
      r := [m] + r;
      rest := rest - {m};
    }
    IncreasingUnique(r, Ascending(s));
  }

  lemma PrependMinimum(s: seq<int>, m: int)
    requires StrictlyIncreasing(s) && forall y :: y in s ==> m < y
    ensures StrictlyIncreasing([m] + s)
    ensures Elements([m] + s) == Elements(s) + {m}
    ensures forall y :: y in [m] + s ==> y == m || y in s
  {
    assert forall i :: 0 <= i < |s| ==> s[i] in s;
  }

  /** As many entries as members. */
  lemma {:induction false} IncreasingLength(s: seq<int>)
    requires StrictlyIncreasing(s)
    ensures |Elements(s)| == |s|
    decreases |s|
  {
    if s == [] {
    } else {
      var front, m := s[..|s| - 1], s[|s| - 1];
      IncreasingLength(front);
      assert s == front + [m];
      assert Elements(s) == Elements(front) + {m};
      assert m !in Elements(front);
    }
  }

  lemma AscendingMembers(s: set<int>)
    ensures forall k :: k in Ascending(s) <==> k in s
    ensures |Ascending(s)| == |s|
  {
    IncreasingLength(Ascending(s));
    forall k ensures k in Ascending(s) <==> k in s {
      MembersOfElements(Ascending(s), k);
    }
  }

  lemma AscendingOfIncreasing(s: seq<int>)
    requires StrictlyIncreasing(s)
    ensures Ascending(Elements(s)) == s
  {
    IncreasingUnique(Ascending(Elements(s)), s);
  }

  /** Insert `x` before the first larger member. */
  function Insert(s: seq<int>, x: int): seq<int> {
    if s == [] then [x]
    else if x <= s[0] then [x] + s
    else [s[0]] + Insert(s[1..], x)
  }

  function Sort(s: seq<int>): seq<int> {
    if s == [] then [] else Insert(Sort(s[..|s| - 1]), s[|s| - 1])
  }

  lemma {:induction false} InsertMembers(s: seq<int>, x: int)
    ensures |Insert(s, x)| == |s| + 1
    ensures forall v :: v in Insert(s, x) <==> v in s || v == x
  {
    if s != [] && x > s[0] {
      InsertMembers(s[1..], x);
      assert s == [s[0]] + s[1..];
      forall v ensures v in Insert(s, x) <==> v in s || v == x {
        assert v in Insert(s, x) <==> v == s[0] || v in Insert(s[1..], x);
        assert v in s <==> v == s[0] || v in s[1..];
      }
    }
  }

  lemma InsertIncreasing(s: seq<int>, x: int)
    requires StrictlyIncreasing(s) && x !in s
    ensures StrictlyIncreasing(Insert(s, x))
  {
    if s != [] && x > s[0] {
      var t := Insert(s[1..], x);
      InsertIncreasing(s[1..], x);
      InsertMembers(s[1..], x);
      forall v | v in t ensures s[0] < v { TailIsLarger(s, v); }
      PrependMinimum(t, s[0]);
    }
  }

  lemma TailIsLarger(s: seq<int>, v: int)
    requires StrictlyIncreasing(s) && s != []
    ensures v in s[1..] ==> s[0] < v
  {
    if v in s[1..] {
      var i :| 0 <= i < |s[1..]| && s[1..][i] == v;
      assert s[i + 1] == v;
    }
  }

  lemma SortIncreasing(s: seq<int>)
    requires StrictlyIncreasing(s)
    ensures Sort(s) == s
  {
    if s == [] {
    } else {
      SortIncreasing(s[..|s| - 1]);
      InsertLast(s[..|s| - 1], s[|s| - 1]);
      assert s == s[..|s| - 1] + [s[|s| - 1]];
    }
  }

  lemma InsertLast(s: seq<int>, x: int)
    requires forall v :: v in s ==> v < x
    ensures Insert(s, x) == s + [x]
  {
    if s == [] {
    } else {
      assert s[0] in s;
      assert forall v :: v in s[1..] ==> v in s;
      InsertLast(s[1..], x);
      assert s == [s[0]] + s[1..];
    }
  }

  /** Appending one new key to a sorted list and sorting it again is the sorted
      list of the enlarged set. */
  lemma SortAppend(s: seq<int>, x: int)
    requires StrictlyIncreasing(s) && x !in s
    ensures StrictlyIncreasing(Sort(s + [x]))
    ensures Elements(Sort(s + [x])) == Elements(s) + {x}
    ensures |Sort(s + [x])| == |s| + 1
  {
    assert (s + [x])[..|s|] == s;
    SortIncreasing(s);
    InsertIncreasing(s, x);
    InsertMembers(s, x);
  }

  /** `s` without its first occurrence of `x`. */
  function Without(s: seq<int>, x: int): seq<int> {
    if s == [] then []
    else if s[0] == x then s[1..]
    else [s[0]] + Without(s[1..], x)
  }

  lemma {:induction false} WithoutAt(s: seq<int>, i: nat)
    requires i < |s| && s[i] !in s[..i]
    ensures Without(s, s[i]) == s[..i] + s[i + 1..]
  {
    if i > 0 {
      var t := s[1..];
      assert s[0] in s[..i];
      forall k | 0 <= k < i - 1 ensures t[k] != s[i] {
        assert t[k] == s[..i][k + 1];
      }
      assert t[i - 1] == s[i] && t[i - 1] !in t[..i - 1];
      WithoutAt(t, i - 1);
      assert Without(s, s[i]) == [s[0]] + Without(t, s[i]);
      ShiftedCut(s, t, i);
    }
  }

  lemma ShiftedCut(s: seq<int>, t: seq<int>, i: nat)
    requires 0 < i < |s| && t == s[1..]
    ensures [s[0]] + (t[..i - 1] + t[i..]) == s[..i] + s[i + 1..]
  {
    assert s[..i] == [s[0]] + t[..i - 1];
    assert s[i + 1..] == t[i..];
  }

  lemma CutMembers(s: seq<int>, i: nat, v: int)
    requires StrictlyIncreasing(s) && i < |s|
    ensures v in s[..i] + s[i + 1..] <==> v in s && v != s[i]
  {
    var r := s[..i] + s[i + 1..];
    if v in s && v != s[i] {
      var j :| 0 <= j < |s| && s[j] == v;
      if j < i { assert r[j] == v; } else { assert r[j - 1] == v; }
    }
    if v in r {
      var k :| 0 <= k < |r| && r[k] == v;
      assert v == s[if k < i then k else k + 1];
    }
  }

  lemma CutIncreasing(s: seq<int>, i: nat)
    requires StrictlyIncreasing(s) && i < |s|
    ensures StrictlyIncreasing(s[..i] + s[i + 1..])
  {
    var r := s[..i] + s[i + 1..];
    assert forall k :: 0 <= k < |r| ==> r[k] == s[if k < i then k else k + 1];
  }

  lemma WithoutIncreasing(s: seq<int>, x: int)
    requires StrictlyIncreasing(s) && x in s
    ensures StrictlyIncreasing(Without(s, x))
    ensures Elements(Without(s, x)) == Elements(s) - {x}
    ensures |Without(s, x)| == |s| - 1
  {
    var i :| 0 <= i < |s| && s[i] == x;
    assert x !in s[..i];
    WithoutAt(s, i);
    CutIncreasing(s, i);
    forall v ensures v in Without(s, x) <==> v in s && v != x { CutMembers(s, i, v); }
  }

  /** The ascending order of 1..n. */
  lemma AscendingRange(n: nat, s: set<int>)
    requires forall x :: x in s <==> 1 <= x <= n
    ensures Ascending(s) == seq(n, i => i + 1)
  {
    var r := seq(n, i => i + 1);
    forall x ensures x in Elements(r) <==> x in s {
      if 1 <= x <= n { assert r[x - 1] == x; }
    }
    assert Elements(r) == s;
    IncreasingUnique(r, Ascending(s));
  }
}
