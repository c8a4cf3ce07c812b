/** `Array.prototype.filter` and `find` on sequences, shared by the hospital demo's list pages. */
module Lists {
  import opened Fhir

  /** The elements satisfying `p`, in their original order. */
  function Filter<T>(s: seq<T>, p: T -> bool): (r: seq<T>)
    ensures |r| <= |s|
    ensures forall i :: 0 <= i < |r| ==> r[i] in s && p(r[i])
    ensures forall i :: 0 <= i < |s| && p(s[i]) ==> s[i] in r
  {
    if s == [] then [] else (if p(s[0]) then [s[0]] else []) + Filter(s[1..], p)
  }

  /** The first element satisfying `p`, or none. */
  function Find<T>(s: seq<T>, p: T -> bool): (r: Option<T>)
    ensures r.Some? ==> r.value in s && p(r.value)
    ensures r.Some? ==> exists i :: 0 <= i < |s| && s[i] == r.value && forall j :: 0 <= j < i ==> !p(s[j])
    ensures r.None? <==> forall i :: 0 <= i < |s| ==> !p(s[i])
  {
    if s == [] then None else if p(s[0]) then Some(s[0]) else Find(s[1..], p)
  }

  /** Filtering a concatenation filters each part: the filter keeps the input order. */
  lemma {:induction false} FilterAppend<T>(a: seq<T>, b: seq<T>, p: T -> bool)
    ensures Filter(a + b, p) == Filter(a, p) + Filter(b, p)
  {
    if a == [] {
      assert a + b == b;
    } else {
      assert (a + b)[1..] == a[1..] + b;
      FilterAppend(a[1..], b, p);
    }
  }

  /** Filters by predicates that agree on every element keep the same elements. */
  lemma {:induction false} FilterSame<T>(s: seq<T>, p: T -> bool, q: T -> bool)
    requires forall i :: 0 <= i < |s| ==> p(s[i]) == q(s[i])
    ensures Filter(s, p) == Filter(s, q)
  {
    if s != [] {
      FilterSame(s[1..], p, q);
    }
  }

  /** A predicate every element meets filters nothing out. */
  lemma {:induction false} FilterAll<T>(s: seq<T>, p: T -> bool)
    requires forall i :: 0 <= i < |s| ==> p(s[i])
    ensures Filter(s, p) == s
  {
    if s != [] {
      FilterAll(s[1..], p);
    }
  }

  /** An element kept by a filter and one dropped by it add up to the whole list. */
  lemma {:induction false} FilterComplement<T>(s: seq<T>, p: T -> bool, q: T -> bool)
    requires forall x :: q(x) == !p(x)
    ensures |Filter(s, p)| + |Filter(s, q)| == |s|
  {
    if s != [] {
      FilterComplement(s[1..], p, q);
    }
  }

  /** Three filters that no element passes twice keep at most the whole list between them. */
  lemma {:induction false} FilterDisjoint<T>(s: seq<T>, p: T -> bool, q: T -> bool, t: T -> bool)
    requires forall x :: !(p(x) && q(x)) && !(p(x) && t(x)) && !(q(x) && t(x))
    ensures |Filter(s, p)| + |Filter(s, q)| + |Filter(s, t)| <= |s|
  {
    if s != [] {
      FilterDisjoint(s[1..], p, q, t);
    }
  }

  /** The queue numbers of a list as shown: the 1-based position of each element. */
  function Numbered<T>(s: seq<T>): (r: seq<(nat, T)>)
    ensures |r| == |s|
    ensures forall i :: 0 <= i < |s| ==> r[i] == (i + 1, s[i])
  {
    if s == [] then [] else Numbered(s[..|s| - 1]) + [(|s|, s[|s| - 1])]
  }

  /** Along a sequence whose rank rises at every step, the rank rises at least by the distance. */
  lemma {:induction false} RankRises<T>(s: seq<T>, rank: T -> nat, i: nat, j: nat)
    requires forall k :: 0 <= k < |s| - 1 ==> rank(s[k]) < rank(s[k + 1])
    requires i <= j < |s|
    ensures rank(s[i]) + (j - i) <= rank(s[j])
    decreases j - i
  {
    if i < j {
      RankRises(s, rank, i + 1, j);
    }
  }

  /** A run of a status machine whose every offered change raises a rank bounded by `top`
      visits at most `top + 1` statuses, never returns to one, and climbs a rank per step. */
  lemma RisingRunIsShort<T>(s: seq<T>, actions: T -> seq<T>, rank: T -> nat, top: nat)
    requires forall x, t :: t in actions(x) ==> rank(x) < rank(t)
    requires forall x :: rank(x) <= top
    requires forall k :: 0 <= k < |s| - 1 ==> s[k + 1] in actions(s[k])
    ensures |s| <= top + 1
    ensures |s| > 0 ==> rank(s[0]) + (|s| - 1) <= rank(s[|s| - 1])
    ensures forall i, j :: 0 <= i < j < |s| ==> s[i] != s[j]
  {
    if |s| > 0 {
      RankRises(s, rank, 0, |s| - 1);
    }
    forall i, j | 0 <= i < j < |s|
      ensures s[i] != s[j]
    {
      RankRises(s, rank, i, j);
    }
  }

  /** Appending is associative; stated once so that loops which append do not re-derive it. */
  lemma AppendAssociative<T>(a: seq<T>, b: seq<T>, c: seq<T>)
    ensures (a + b) + c == a + (b + c)
  {
  }

  /** A slice inside the front of a concatenation is a slice of the front. */
  lemma SliceOfFront<T>(a: seq<T>, b: seq<T>, i: nat, j: nat)
    requires i <= j <= |a|
    ensures (a + b)[i..j] == a[i..j]
  {
  }

  /** The back of a concatenation, sliced out again. */
  lemma SliceOfBack<T>(a: seq<T>, b: seq<T>)
    ensures (a + b)[|a|..|a| + |b|] == b
  {
  }

  /** A non-empty sequence holds its head and the elements of its tail. */
  lemma MultisetHeadTail<T>(s: seq<T>)
    requires s != []
    ensures multiset(s) == multiset{s[0]} + multiset(s[1..])
  {
    assert s == [s[0]] + s[1..];
  }
}
