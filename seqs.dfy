/** Sequence functions that several parts of the planner share: filtering and concatenation. */
module Seqs {

  /** The elements of `s` that satisfy `p`, in their order in `s`. */
  function Filter<T(!new)>(s: seq<T>, p: T -> bool): (r: seq<T>)
    ensures |r| <= |s|
    ensures forall x :: x in r <==> x in s && p(x)
    ensures forall j :: 0 <= j < |r| ==> p(r[j])
  {
    if |s| == 0 then [] else (if p(s[0]) then [s[0]] else []) + Filter(s[1..], p)
  }

  lemma {:induction false} FilterAppend<T(!new)>(s: seq<T>, t: seq<T>, p: T -> bool)
    ensures Filter(s + t, p) == Filter(s, p) + Filter(t, p)
  {
    if |s| == 0 {
      assert s + t == t;
    } else {
      assert (s + t)[1..] == s[1..] + t;
      FilterAppend(s[1..], t, p);
    }
  }

  /** Filtering one more element: how a loop that appends matching elements builds `Filter`. */
  lemma FilterSnoc<T(!new)>(s: seq<T>, x: T, p: T -> bool)
    ensures Filter(s + [x], p) == Filter(s, p) + (if p(x) then [x] else [])
  {
    FilterAppend(s, [x], p);
  }

  /** A predicate and its negation split a sequence: every element lands on exactly one side. */
  lemma {:induction false} FilterPartition<T(!new)>(s: seq<T>, p: T -> bool)
    ensures multiset(Filter(s, p)) + multiset(Filter(s, x => !p(x))) == multiset(s)
    ensures |Filter(s, p)| + |Filter(s, x => !p(x))| == |s|
  {
    FilterComplement(s, p, x => !p(x));
  }

  /** A predicate and its complement `q` split a sequence the same way. */
  lemma {:induction false} FilterComplement<T(!new)>(s: seq<T>, p: T -> bool, q: T -> bool)
    requires forall x :: q(x) == !p(x)
    ensures multiset(Filter(s, p)) + multiset(Filter(s, q)) == multiset(s)
    ensures |Filter(s, p)| + |Filter(s, q)| == |s|
  {
    if |s| > 0 {
      FilterComplement(s[1..], p, q);
      assert s == [s[0]] + s[1..];
    }
  }

  /** Python's `[e for sub in ls for e in sub]`. */
  function Concat<T>(ls: seq<seq<T>>): seq<T> {
    if |ls| == 0 then [] else ls[0] + Concat(ls[1..])
  }

  function SumLengths<T>(ls: seq<seq<T>>): nat {
    if |ls| == 0 then 0 else |ls[0]| + SumLengths(ls[1..])
  }

  lemma {:induction false} ConcatLength<T>(ls: seq<seq<T>>)
    ensures |Concat(ls)| == SumLengths(ls)
  {
    if |ls| > 0 {
      ConcatLength(ls[1..]);
    }
  }

  /** An element of the concatenation comes from one of the lists, and every element of every list is in it. */
  lemma {:induction false} ConcatMembers<T>(ls: seq<seq<T>>, x: T)
    ensures x in Concat(ls) <==> exists i :: 0 <= i < |ls| && x in ls[i]
  {
    if |ls| > 0 {
      ConcatMembers(ls[1..], x);
      if x in ls[0] {
      } else if x in Concat(ls[1..]) {
        var i :| 0 <= i < |ls[1..]| && x in ls[1..][i];
        assert x in ls[i + 1];
      } else {
        forall i | 0 <= i < |ls| ensures x !in ls[i] {
          if i > 0 {
            assert ls[i] == ls[1..][i - 1];
          }
        }
      }
    }
  }

  /** Number of elements of `s` that satisfy `p`. */
  function CountIf<T(!new)>(s: seq<T>, p: T -> bool): nat {
    |Filter(s, p)|
  }

  /** The reverse of a sequence (`list.reverse()`). */
  function Reversed<T>(s: seq<T>): (r: seq<T>)
    ensures |r| == |s|
    ensures forall j :: 0 <= j < |s| ==> r[j] == s[|s| - 1 - j]
  {
    if |s| == 0 then [] else Reversed(s[1..]) + [s[0]]
  }
}
