/** Sequences as lists of other things: reversed, without repetition, or spelling out a map. */
module Listings {

  function Reversed<T>(s: seq<T>): (r: seq<T>) {
    if s == [] then [] else [s[|s| - 1]] + Reversed(s[..|s| - 1])
  }

  lemma ReversedEnds<T>(s: seq<T>)
    ensures s == [] ==> Reversed(s) == []
    ensures s != [] ==> Reversed(s) == [s[|s| - 1]] + Reversed(s[..|s| - 1])
  {
  }

  lemma {:induction false} ReversedContents<T>(s: seq<T>)
    ensures multiset(Reversed(s)) == multiset(s)
  {
    if s != [] {
      ReversedContents(s[..|s| - 1]);
      assert s == s[..|s| - 1] + [s[|s| - 1]];
    }
  }

  lemma {:induction false} ReversedDistinct<T(!new)>(s: seq<T>)
    requires NoDuplicates(s)
    ensures NoDuplicates(Reversed(s))
    ensures forall x :: x in Reversed(s) <==> x in s
  {
    if s != [] {
      var n := |s| - 1;
      ReversedDistinct(s[..n]);
      assert s == s[..n] + [s[n]];
      assert s[n] !in s[..n];
      var r := Reversed(s[..n]);
      assert forall i | 0 <= i < |r| :: r[i] in r && Reversed(s)[i + 1] == r[i];
    }
  }

  ghost predicate NoDuplicates<T>(s: seq<T>) {
    forall i, j | 0 <= i < j < |s| :: s[i] != s[j]
  }

  /** A set in some order. */
  lemma {:induction false} Spelled<T>(xs: set<T>) returns (s: seq<T>)
    ensures NoDuplicates(s) && forall x :: x in s <==> x in xs
    decreases |xs|
  {
    if xs == {} {
      s := [];
    } else {
      var x :| x in xs;
      s := Spelled(xs - {x});
      s := [x] + s;
    }
  }

  /** `out` is the map `m` written out, every entry once. */
  ghost predicate Enumerates<K(!new), V(!new)>(out: seq<(K, V)>, m: map<K, V>) {
    && (forall i | 0 <= i < |out| :: out[i].0 in m && m[out[i].0] == out[i].1)
    && (forall k | k in m :: (k, m[k]) in out)
    && (forall i, j | 0 <= i < j < |out| :: out[i].0 != out[j].0)
  }
}
