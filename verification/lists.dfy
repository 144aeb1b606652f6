/** List helpers shared by the dashboards, the forms and the report cache:
    `Array.prototype.filter`, filtering out one index, and counting. */
module Lists {
  import opened Wrappers

  /** r occurs in s in the same order, possibly with gaps. */
  ghost predicate SubseqOf<T>(r: seq<T>, s: seq<T>)
  {
    if r == [] then true
    else if s == [] then false
    else (r[0] == s[0] && SubseqOf(r[1..], s[1..])) || SubseqOf(r, s[1..])
  }

  /** The elements of s that satisfy p, in their original order, each as often as in s. */
  function Filter<T(!new)>(s: seq<T>, p: T -> bool): (r: seq<T>)
    ensures |r| <= |s|
    ensures forall x :: x in r <==> x in s && p(x)
    ensures forall x :: multiset(r)[x] == if p(x) then multiset(s)[x] else 0
    ensures SubseqOf(r, s)
  {
    if s == [] then []
    else
      assert s == [s[0]] + s[1..];
      if p(s[0]) then [s[0]] + Filter(s[1..], p) else Filter(s[1..], p)
  }

  /** Whether nothing in s satisfies p, read off the filtered list (`list.length === 0`): the
      check a status tab makes before showing its empty-state card. */
  function NoneMatch<T(!new)>(s: seq<T>, p: T -> bool): (b: bool)
    ensures b <==> forall x :: x in s ==> !p(x)
  {
    var r := Filter(s, p);
    assert r != [] ==> r[0] in r;
    |r| == 0
  }

  lemma {:induction false} FilterAppend<T(!new)>(a: seq<T>, b: seq<T>, p: T -> bool)
    ensures Filter(a + b, p) == Filter(a, p) + Filter(b, p)
  {
    if a == [] {
      assert a + b == b;
    } else {
      assert (a + b)[1..] == a[1..] + b;
      FilterAppend(a[1..], b, p);
    }
  }

  /** Filtering depends only on which elements the predicate accepts. */
  lemma {:induction false} FilterSamePredicate<T(!new)>(s: seq<T>, p: T -> bool, q: T -> bool)
    requires forall x :: x in s ==> p(x) == q(x)
    ensures Filter(s, p) == Filter(s, q)
  {
    if s != [] {
      FilterSamePredicate(s[1..], p, q);
    }
  }

  /** Filtering with a predicate that holds of every element keeps the whole list. */
  lemma {:induction false} FilterAll<T(!new)>(s: seq<T>, p: T -> bool)
    requires forall x :: x in s ==> p(x)
    ensures Filter(s, p) == s
  {
    if s != [] {
      FilterAll(s[1..], p);
    }
  }

  /** Filtering with a predicate that no element satisfies gives the empty list. */
  lemma FilterNone<T(!new)>(s: seq<T>, p: T -> bool)
    requires forall x :: x in s ==> !p(x)
    ensures Filter(s, p) == []
  {
    if Filter(s, p) != [] {
      assert Filter(s, p)[0] in Filter(s, p);
    }
  }

  /** Three counts over pairwise exclusive predicates never exceed the length of the list,
      and they add up to it exactly when every element satisfies one of them. */
  lemma {:induction false} CountsOfExclusive<T(!new)>(s: seq<T>, p: T -> bool, q: T -> bool, u: T -> bool)
    requires forall x :: !(p(x) && q(x)) && !(p(x) && u(x)) && !(q(x) && u(x))
    ensures |Filter(s, p)| + |Filter(s, q)| + |Filter(s, u)| <= |s|
    ensures (forall x :: x in s ==> p(x) || q(x) || u(x)) ==>
              |Filter(s, p)| + |Filter(s, q)| + |Filter(s, u)| == |s|
  {
    if s != [] {
      CountsOfExclusive(s[1..], p, q, u);
      assert forall x :: x in s[1..] ==> x in s;
    }
  }

  /** `s.find(p)`: the first element that satisfies p, if any. */
  function Find<T(!new)>(s: seq<T>, p: T -> bool): (r: Option<T>)
    ensures r.None? <==> forall x :: x in s ==> !p(x)
    ensures r.Some? ==> exists i :: 0 <= i < |s| && s[i] == r.value && p(r.value)
                          && forall j :: 0 <= j < i ==> !p(s[j])
  {
    if s == [] then None
    else if p(s[0]) then Some(s[0])
    else
      var r := Find(s[1..], p);
      if r.Some? then
        ghost var i :| 0 <= i < |s[1..]| && s[1..][i] == r.value && p(r.value)
                       && forall j :: 0 <= j < i ==> !p(s[1..][j]);
        assert s[i + 1] == r.value;
        r
      else
        r
  }

  /** When no two elements share a key, looking an element up by its own key finds it. */
  lemma {:induction false} FindByUniqueKey<T(!new), K>(s: seq<T>, key: T -> K, x: T, p: T -> bool)
    requires forall i, j :: 0 <= i < j < |s| ==> key(s[i]) != key(s[j])
    requires x in s
    requires forall y :: p(y) <==> key(y) == key(x)
    ensures Find(s, p) == Some(x)
  {
    if s[0] != x {
      var k :| 0 <= k < |s| && s[k] == x;
      assert key(s[0]) != key(x);
      assert x in s[1..];
      FindByUniqueKey(s[1..], key, x, p);
    }
  }

  /** `s.filter((_, i) => i !== index)` walked from position `pos` onwards. */
  function DropAt<T>(s: seq<T>, index: int, pos: int): seq<T>
  {
    if s == [] then []
    else if pos != index then [s[0]] + DropAt(s[1..], index, pos + 1)
    else DropAt(s[1..], index, pos + 1)
  }

  lemma {:induction false} DropAtSpec<T>(s: seq<T>, index: int, pos: int)
    ensures pos <= index < pos + |s| ==> DropAt(s, index, pos) == s[..index - pos] + s[index - pos + 1..]
    ensures !(pos <= index < pos + |s|) ==> DropAt(s, index, pos) == s
  {
    if s != [] {
      DropAtSpec(s[1..], index, pos + 1);
      if pos == index {
        assert DropAt(s[1..], index, pos + 1) == s[1..];
      } else if pos < index < pos + |s| {
        assert s[..index - pos] == [s[0]] + s[1..][..index - pos - 1];
        assert s[index - pos + 1..] == s[1..][index - pos..];
      } else {
        assert s == [s[0]] + s[1..];
      }
    }
  }

  /** The list without the element at `index`; an index outside the list removes nothing. */
  function RemoveIndex<T>(s: seq<T>, index: int): (r: seq<T>)
    ensures 0 <= index < |s| ==> |r| == |s| - 1
    ensures 0 <= index < |s| ==> forall k :: 0 <= k < index ==> r[k] == s[k]
    ensures 0 <= index < |s| ==> forall k :: index <= k < |r| ==> r[k] == s[k + 1]
    ensures !(0 <= index < |s|) ==> r == s
  {
    DropAtSpec(s, index, 0);
    DropAt(s, index, 0)
  }
}
