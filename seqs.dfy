/** Sequence helpers shared by both formatters: Python's reversed(), the
    "keep what is not None" loop pattern, and the substring test `p in s`. */
module Seqs {

  datatype Option<+T> = None | Some(value: T)

  /** Python's `reversed(s)`, as a sequence. */
  function Reverse<T>(s: seq<T>): (r: seq<T>)
    ensures |r| == |s|
    ensures forall k :: 0 <= k < |s| ==> r[k] == s[|s| - 1 - k]
  {
    if s == [] then [] else Reverse(s[1..]) + [s[0]]
  }

  /** Walking a suffix backwards visits its first element last. */
  lemma ReverseStep<T>(s: seq<T>, i: nat)
    requires i < |s|
    ensures Reverse(s[i..]) == Reverse(s[i + 1..]) + [s[i]]
  {
    assert s[i..][1..] == s[i + 1..];
  }

  /** The values `f` keeps, in order: the loop
      `for x in s: y = f(x); if y is not None: out.append(y)`. */
  function FilterMap<T, U>(f: T -> Option<U>, s: seq<T>): (r: seq<U>)
    ensures |r| <= |s|
  {
    if s == [] then []
    else
      var rest := FilterMap(f, s[1..]);
      match f(s[0])
      case Some(u) => [u] + rest
      case None => rest
  }

  lemma {:induction false} FilterMapAppend<T, U>(f: T -> Option<U>, a: seq<T>, b: seq<T>)
    ensures FilterMap(f, a + b) == FilterMap(f, a) + FilterMap(f, b)
  {
    if a == [] {
      assert a + b == b;
    } else {
      assert (a + b)[1..] == a[1..] + b;
      FilterMapAppend(f, a[1..], b);
    }
  }

  /** Appending one element keeps its value, if any, at the end. */
  lemma FilterMapSnoc<T, U>(f: T -> Option<U>, a: seq<T>, x: T)
    ensures FilterMap(f, a + [x]) == FilterMap(f, a) + (if f(x).Some? then [f(x).value] else [])
  {
    FilterMapAppend(f, a, [x]);
    assert [x][1..] == [];
  }

  /** When `f` keeps everything, nothing is dropped and nothing moves. */
  lemma {:induction false} FilterMapKeepsAll<T, U>(f: T -> Option<U>, s: seq<T>)
    requires forall j :: 0 <= j < |s| ==> f(s[j]).Some?
    ensures |FilterMap(f, s)| == |s|
    ensures forall k :: 0 <= k < |s| ==> FilterMap(f, s)[k] == f(s[k]).value
  {
    if s != [] {
      FilterMapKeepsAll(f, s[1..]);
    }
  }

  /** A value is in the output exactly when `f` produced it for some element. */
  lemma {:induction false} FilterMapMembers<T, U>(f: T -> Option<U>, s: seq<T>, u: U)
    ensures u in FilterMap(f, s) <==> exists j :: 0 <= j < |s| && f(s[j]) == Some(u)
  {
    if s != [] {
      FilterMapMembers(f, s[1..], u);
      if exists j :: 0 <= j < |s| && f(s[j]) == Some(u) {
        var j :| 0 <= j < |s| && f(s[j]) == Some(u);
        if j > 0 {
          assert f(s[1..][j - 1]) == Some(u);
        }
      }
      if exists j :: 0 <= j < |s[1..]| && f(s[1..][j]) == Some(u) {
        var j :| 0 <= j < |s[1..]| && f(s[1..][j]) == Some(u);
        assert f(s[j + 1]) == Some(u);
      }
    }
  }

  /** `p` occurs in `s` starting at index `i`. */
  ghost predicate OccursAt<T>(s: seq<T>, p: seq<T>, i: nat)
  {
    i + |p| <= |s| && s[i..i + |p|] == p
  }

  /** Python's `p in s` for strings: `p` is a contiguous piece of `s`. */
  predicate Contains<T(==)>(s: seq<T>, p: seq<T>)
    decreases |s|
  {
    |p| <= |s| && (s[..|p|] == p || Contains(s[1..], p))
  }

  lemma {:induction false} ContainsIff<T>(s: seq<T>, p: seq<T>)
    ensures Contains(s, p) <==> exists i: nat :: OccursAt(s, p, i)
    decreases |s|
  {
    if |p| <= |s| {
      if s[..|p|] == p {
        assert OccursAt(s, p, 0);
      } else {
        ContainsIff(s[1..], p);
        if exists i: nat :: OccursAt(s[1..], p, i) {
          var i: nat :| OccursAt(s[1..], p, i);
          assert s[i + 1..i + 1 + |p|] == s[1..][i..i + |p|];
          assert OccursAt(s, p, i + 1);
        }
        if exists i: nat :: OccursAt(s, p, i) {
          var i: nat :| OccursAt(s, p, i);
          assert i != 0;
          assert s[1..][i - 1..i - 1 + |p|] == s[i..i + |p|];
          assert OccursAt(s[1..], p, i - 1);
        }
      }
    }
  }

  /** A witness is enough to establish `Contains`. */
  lemma ContainsAt<T>(s: seq<T>, p: seq<T>, i: nat)
    requires OccursAt(s, p, i)
    ensures Contains(s, p)
  {
    ContainsIff(s, p);
  }
}
