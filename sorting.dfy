/** `sorted(ports)` over the port numbers of one protocol. */
module Sorting {

  predicate StrictlyIncreasing(s: seq<nat>) {
    forall i, j :: 0 <= i < j < |s| ==> s[i] < s[j]
  }

  lemma {:induction false} LeastOf(s: set<nat>) returns (m: nat)
    requires s != {}
    ensures m in s && forall y :: y in s ==> m <= y
    decreases |s|
  {
    var x :| x in s;
    if s == {x} {
      m := x;
    } else {
      var rest := s - {x};
      assert |rest| < |s|;
      var r := LeastOf(rest);
      m := if x < r then x else r;
      forall y | y in s ensures m <= y {
        if y != x { assert y in rest; }
      }
    }
  }

  lemma MinExists(s: set<nat>)
    requires s != {}
    ensures exists m :: m in s && forall y :: y in s ==> m <= y
  {
    var m := LeastOf(s);
  }

  /** The least element of a non-empty set of port numbers. */
  function SetMin(s: set<nat>): (m: nat)
    requires s != {}
    ensures m in s && forall y :: y in s ==> m <= y
  {
    MinExists(s);
    var m :| m in s && forall y :: y in s ==> m <= y; m
  }

  /** The elements of `s` in ascending order, each once: the reference meaning of
      Python's `sorted` on a set of distinct integers. */
  function SortedKeys(s: set<nat>): (r: seq<nat>)
    ensures StrictlyIncreasing(r)
    ensures |r| == |s|
    ensures forall k :: k in r <==> k in s
    decreases |s|
  {
    if s == {} then []
    else
      var m := SetMin(s);
      var rest := SortedKeys(s - {m});
      assert forall k :: k in rest ==> m < k;
      [m] + rest
  }

  /** An ascending enumeration of a set is unique. */
  lemma {:induction false} StrictlyIncreasingUnique(a: seq<nat>, b: seq<nat>)
    requires StrictlyIncreasing(a) && StrictlyIncreasing(b)
    requires forall k :: k in a <==> k in b
    ensures a == b
  {
    assert a == [] <==> b == [] by {
      if a != [] { assert a[0] in b; }
      if b != [] { assert b[0] in a; }
    }
    if a != [] {
      assert a[0] == b[0] by {
        assert a[0] in b;
        assert b[0] in a;
      }
      forall k ensures k in a[1..] <==> k in b[1..] {
        if k in a[1..] {
          assert k > a[0] && k in b;
          var j :| 0 <= j < |b| && b[j] == k;
          assert b[1..][j - 1] == k;
        }
        if k in b[1..] {
          assert k > b[0] && k in a;
          var i :| 0 <= i < |a| && a[i] == k;
          assert a[1..][i - 1] == k;
        }
      }
      StrictlyIncreasingUnique(a[1..], b[1..]);
      assert a == [a[0]] + a[1..];
      assert b == [b[0]] + b[1..];
    }
  }

  /** `x` put into its place in an ascending sequence that does not hold it. */
  function Insert(s: seq<nat>, x: nat): (r: seq<nat>)
    requires StrictlyIncreasing(s) && x !in s
    ensures StrictlyIncreasing(r)
    ensures |r| == |s| + 1
    ensures forall k :: k in r <==> k in s || k == x
  {
    if s == [] || x < s[0] then [x] + s
    else
      var tail := Insert(s[1..], x);
      assert forall k :: k in tail ==> s[0] < k;
      var r := [s[0]] + tail;
      assert forall i, j :: 0 <= i < j < |r| ==> r[i] < r[j] by {
        forall i, j | 0 <= i < j < |r| ensures r[i] < r[j] {
          assert r[j] == tail[j - 1];
          if i > 0 { assert r[i] == tail[i - 1]; } else { assert tail[j - 1] in tail; }
        }
      }
      r
  }

  /** Sort the port numbers of one protocol by inserting them one at a time; the
      result is the ascending enumeration of the keys. */
  method SortPorts<V>(ports: map<nat, V>) returns (ks: seq<nat>)
    ensures StrictlyIncreasing(ks) && forall k :: k in ks <==> k in ports
    ensures ks == SortedKeys(ports.Keys)
  {
    var rest := ports.Keys;
    ks := [];
    while rest != {}
      invariant rest <= ports.Keys
      invariant StrictlyIncreasing(ks)
      invariant forall k :: k in ks <==> k in ports.Keys - rest
      decreases |rest|
    {
      var x :| x in rest;
      ks := Insert(ks, x);
      rest := rest - {x};
    }
    StrictlyIncreasingUnique(ks, SortedKeys(ports.Keys));
  }
}
