/** The two JavaScript array operations the scheduler uses on its list of active requests. */
module JsArray {

  /** `Array.prototype.indexOf`: the first index holding `x`, or -1 when there is none. */
  function IndexOf<T(==)>(s: seq<T>, x: T): (r: int)
    ensures -1 <= r < |s|
    ensures r == -1 <==> x !in s
    ensures 0 <= r ==> s[r] == x && x !in s[..r]
  {
    if s == [] then -1
    else if s[0] == x then 0
    else
      var k := IndexOf(s[1..], x);
      if k == -1 then -1
      else
        assert s[..k + 1] == [s[0]] + s[1..][..k];
        k + 1
  }

  /** `Array.prototype.splice(start, 1)`: a negative start counts from the end (and is clamped
      to 0); a start past the end removes nothing. */
  function SpliceOne<T>(s: seq<T>, start: int): (r: seq<T>)
  {
    var k := if start < 0 then (if |s| + start < 0 then 0 else |s| + start) else start;
    if k < |s| then s[..k] + s[k + 1..] else s
  }

  /** No element occurs twice. */
  predicate Distinct<T(==)>(s: seq<T>)
  {
    forall i, j :: 0 <= i < j < |s| ==> s[i] != s[j]
  }

  /** Element `i` of `s` with element `k` removed. */
  lemma RemoveAt<T>(s: seq<T>, k: nat)
    requires k < |s|
    ensures |s[..k] + s[k + 1..]| == |s| - 1
    ensures forall i :: 0 <= i < |s| - 1 ==> (s[..k] + s[k + 1..])[i] == if i < k then s[i] else s[i + 1]
  {
  }

  /** Removing a present element by `splice(indexOf(x), 1)` removes exactly that element and
      keeps every other element, in order. */
  lemma RemoveFound<T>(s: seq<T>, x: T)
    requires x in s && Distinct(s)
    ensures var k := IndexOf(s, x);
      0 <= k < |s| && s[k] == x && SpliceOne(s, k) == s[..k] + s[k + 1..]
    ensures |SpliceOne(s, IndexOf(s, x))| == |s| - 1
    ensures forall i :: 0 <= i < |s| - 1 ==>
      SpliceOne(s, IndexOf(s, x))[i] == if i < IndexOf(s, x) then s[i] else s[i + 1]
    ensures x !in SpliceOne(s, IndexOf(s, x))
    ensures Distinct(SpliceOne(s, IndexOf(s, x)))
    ensures forall y :: y != x ==> (y in SpliceOne(s, IndexOf(s, x)) <==> y in s)
  {
    var k := IndexOf(s, x);
    RemoveAt(s, k);
    RemoveKeepsDistinct(s, k);
    RemoveKeepsOthers(s, k);
  }

  /** Removing element `k` of a sequence without repeats leaves a sequence without repeats
      that no longer holds that element. */
  lemma RemoveKeepsDistinct<T>(s: seq<T>, k: nat)
    requires k < |s| && Distinct(s)
    ensures s[k] !in s[..k] + s[k + 1..]
    ensures Distinct(s[..k] + s[k + 1..])
  {
    var r := s[..k] + s[k + 1..];
    RemoveAt(s, k);
    forall i | 0 <= i < |r| ensures r[i] != s[k] {
      if i < k { assert s[i] != s[k]; } else { assert s[i + 1] != s[k]; }
    }
    forall i, j | 0 <= i < j < |r| ensures r[i] != r[j] {
      var i' := if i < k then i else i + 1;
      var j' := if j < k then j else j + 1;
      assert r[i] == s[i'] && r[j] == s[j'] && i' < j';
    }
  }

  /** Removing element `k` keeps every value other than `s[k]` that `s` holds. */
  lemma RemoveKeepsOthers<T>(s: seq<T>, k: nat)
    requires k < |s|
    ensures forall y :: y != s[k] ==> (y in s[..k] + s[k + 1..] <==> y in s)
  {
    var r := s[..k] + s[k + 1..];
    RemoveAt(s, k);
    forall y | y in s && y != s[k] ensures y in r {
      var j :| 0 <= j < |s| && s[j] == y;
      if j < k { assert r[j] == y; } else { assert j != k && r[j - 1] == y; }
    }
  }

  /** When the element is absent, `indexOf` gives -1 and `splice(-1, 1)` drops the LAST
      element instead: the unguarded pattern in the source relies on the element being present. */
  lemma RemoveMissingDropsLast<T>(s: seq<T>, x: T)
    requires x !in s && s != []
    ensures SpliceOne(s, IndexOf(s, x)) == s[..|s| - 1]
  {
  }
}
