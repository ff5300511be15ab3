/** Facts about filtered sequences shared by the deciders. */
module Seqs {
  import opened Config

  /** The elements of `s` that satisfy `p`, in order. */
  function Keep<T>(s: seq<T>, p: T -> bool): seq<T> {
    if s == [] then []
    else Keep(s[..|s| - 1], p) + (if p(s[|s| - 1]) then [s[|s| - 1]] else [])
  }

  lemma {:induction false} KeepMember<T>(s: seq<T>, p: T -> bool, x: T)
    ensures x in Keep(s, p) <==> x in s && p(x)
  {
    if s != [] {
      KeepMember(s[..|s| - 1], p, x);
      assert s == s[..|s| - 1] + [s[|s| - 1]];
    }
  }

  lemma KeepMembers<T(!new)>(s: seq<T>, p: T -> bool)
    ensures forall x :: x in Keep(s, p) <==> x in s && p(x)
  {
    forall x ensures x in Keep(s, p) <==> x in s && p(x) { KeepMember(s, p, x); }
  }

  /** One loop iteration: extending the scanned prefix by one element. */
  lemma KeepNext<T>(s: seq<T>, i: nat, p: T -> bool)
    requires i < |s|
    ensures Keep(s[..i + 1], p) == Keep(s[..i], p) + (if p(s[i]) then [s[i]] else [])
  {
    assert s[..i + 1][..i] == s[..i];
  }

  lemma {:induction false} KeepConcat<T>(a: seq<T>, b: seq<T>, p: T -> bool)
    ensures Keep(a + b, p) == Keep(a, p) + Keep(b, p)
  {
    if b == [] {
      assert a + b == a;
    } else {
      KeepConcat(a, b[..|b| - 1], p);
      assert (a + b)[..|a + b| - 1] == a + b[..|b| - 1];
    }
  }

  /** A set drawn from a sequence is no larger than the sequence. */
  lemma {:induction false} SetFromSeqSize<T>(s: seq<T>, xs: set<T>)
    requires forall x :: x in xs ==> x in s
    ensures |xs| <= |s|
  {
    if s == [] {
      assert xs == {};
    } else {
      var last := s[|s| - 1];
      assert s == s[..|s| - 1] + [last];
      SetFromSeqSize(s[..|s| - 1], xs - {last});
      assert |xs| <= |xs - {last}| + 1 by {
        if last in xs { assert xs == (xs - {last}) + {last}; } else { assert xs - {last} == xs; }
      }
    }
  }

  lemma SubsetSize<T>(a: set<T>, b: set<T>)
    requires a <= b
    ensures |a| <= |b|
  {
    assert b == a + (b - a);
  }

  function First<T>(s: seq<T>): Option<T> {
    if s == [] then None else Some(s[0])
  }

  lemma KeepTwo<T>(a: T, b: T, p: T -> bool)
    ensures Keep([a, b], p) == (if p(a) then [a] else []) + (if p(b) then [b] else [])
  {
    KeepConcat([a], [b], p);
    KeepOne(a, p);
    KeepOne(b, p);
    assert [a, b] == [a] + [b];
  }

  lemma KeepOne<T>(a: T, p: T -> bool)
    ensures Keep([a], p) == if p(a) then [a] else []
  {
    assert [a][..0] == [];
  }

  lemma {:induction false} KeepNone<T>(s: seq<T>, p: T -> bool)
    requires forall x :: x in s ==> !p(x)
    ensures Keep(s, p) == []
  {
    if s != [] { KeepNone(s[..|s| - 1], p); }
  }

  lemma {:induction false} KeepAll<T>(s: seq<T>, p: T -> bool)
    requires forall x :: x in s ==> p(x)
    ensures Keep(s, p) == s
  {
    if s != [] {
      assert s == s[..|s| - 1] + [s[|s| - 1]];
      KeepAll(s[..|s| - 1], p);
    }
  }

  /** Filtering twice is filtering once by both conditions. */
  lemma {:induction false} KeepTwice<T(!new)>(s: seq<T>, p: T -> bool, q: T -> bool, both: T -> bool)
    requires forall x :: both(x) <==> p(x) && q(x)
    ensures Keep(Keep(s, p), q) == Keep(s, both)
  {
    if s != [] {
      var n := |s| - 1;
      KeepTwice(s[..n], p, q, both);
      if p(s[n]) {
        assert Keep(s, p)[..|Keep(s, p)| - 1] == Keep(s[..n], p);
      } else {
        assert Keep(s, p) == Keep(s[..n], p);
      }
    }
  }

  lemma AnotherMember<T>(xs: set<T>, a: T) returns (b: T)
    requires |xs| >= 2
    ensures b in xs && b != a
  {
    if xs <= {a} { SubsetSize(xs, {a}); }
    b :| b in xs && b != a;
  }

  lemma KeepNoneBack<T(!new)>(s: seq<T>, p: T -> bool)
    requires Keep(s, p) == []
    ensures forall x :: x in s ==> !p(x)
  {
    KeepMembers(s, p);
  }

  lemma {:induction false} KeepSame<T(!new)>(s: seq<T>, p: T -> bool, q: T -> bool)
    requires forall x :: p(x) == q(x)
    ensures Keep(s, p) == Keep(s, q)
  {
    if s != [] { KeepSame(s[..|s| - 1], p, q); }
  }
}
