/**
 * The array operations the listing pages use: `filter` with `length`, and the
 * "toggle an id" update of the favourite and saved-project lists.
 */
module Lists {

  /** `r` is obtained from `s` by deleting elements, keeping the order of the rest. */
  ghost predicate IsSubsequence<T>(r: seq<T>, s: seq<T>)
    decreases |s|
  {
    if r == [] then true
    else if s == [] then false
    else (r[0] == s[0] && IsSubsequence(r[1..], s[1..])) || IsSubsequence(r, s[1..])
  }

  predicate NoDuplicates<T(==)>(s: seq<T>) {
    forall i, j :: 0 <= i < j < |s| ==> s[i] != s[j]
  }

  /** `Array.prototype.filter`: the elements that pass `p`, in their original
      order and each as often as in `s`. */
  function Filter<T(!new)>(s: seq<T>, p: T -> bool): (r: seq<T>)
    ensures |r| <= |s|
    ensures forall x :: x in r <==> x in s && p(x)
    ensures IsSubsequence(r, s)
    ensures forall x :: multiset(r)[x] == if p(x) then multiset(s)[x] else 0
  {
    if s == [] then []
    else
      var rest := Filter(s[1..], p);
      assert s == [s[0]] + s[1..];
      assert multiset(s) == multiset([s[0]]) + multiset(s[1..]);
      if p(s[0]) then
        assert ([s[0]] + rest)[1..] == rest;
        assert multiset([s[0]] + rest) == multiset([s[0]]) + multiset(rest);
        [s[0]] + rest
      else rest
  }

  /** Filtering a list whose elements all pass gives back the list. */
  lemma {:induction false} FilterAll<T(!new)>(s: seq<T>, p: T -> bool)
    requires forall x :: x in s ==> p(x)
    ensures Filter(s, p) == s
  {
    if s != [] {
      FilterAll(s[1..], p);
      assert [s[0]] + s[1..] == s;
    }
  }

  /** Two tests that agree on every element of the list filter it alike. */
  lemma {:induction false} FilterAgree<T(!new)>(s: seq<T>, p: T -> bool, q: T -> bool)
    requires forall x :: x in s ==> p(x) == q(x)
    ensures Filter(s, p) == Filter(s, q)
  {
    if s != [] {
      FilterAgree(s[1..], p, q);
    }
  }

  /** Filtering distributes over concatenation. */
  lemma {:induction false} FilterAppend<T(!new)>(s: seq<T>, t: seq<T>, p: T -> bool)
    ensures Filter(s + t, p) == Filter(s, p) + Filter(t, p)
  {
    if s == [] {
      assert s + t == t;
    } else {
      assert (s + t)[1..] == s[1..] + t;
      FilterAppend(s[1..], t, p);
    }
  }

  /** Filtering keeps a list free of duplicates. */
  lemma {:induction false} FilterNoDuplicates<T(!new)>(s: seq<T>, p: T -> bool)
    requires NoDuplicates(s)
    ensures NoDuplicates(Filter(s, p))
  {
    if s != [] {
      FilterNoDuplicates(s[1..], p);
      var rest := Filter(s[1..], p);
      assert s[0] !in s[1..] by {
        forall j | 0 <= j < |s[1..]| ensures s[1..][j] != s[0] { assert s[1..][j] == s[j + 1]; }
      }
      assert s[0] !in rest;
    }
  }

  /** `list.filter(x => x !== v)`. */
  function Without<T(==,!new)>(s: seq<T>, v: T): (r: seq<T>)
    ensures v !in r
    ensures forall x :: x != v ==> (x in r <==> x in s)
    ensures IsSubsequence(r, s)
  {
    Filter(s, x => x != v)
  }

  /** `list.includes(v) ? list.filter(x => x !== v) : [...list, v]`. */
  function Toggle<T(==,!new)>(s: seq<T>, v: T): (r: seq<T>)
    ensures v in r <==> v !in s
    ensures forall x :: x != v ==> (x in r <==> x in s)
  {
    if v in s then Without(s, v) else s + [v]
  }

  /** Removing `v` twice is removing it once. */
  lemma WithoutIdempotent<T(!new)>(s: seq<T>, v: T)
    ensures Without(Without(s, v), v) == Without(s, v)
  {
    FilterAll(Without(s, v), x => x != v);
  }

  /** State after a toggle: an absent id is appended at the end, a present one
      disappears with every copy of it, and the other ids keep both their
      membership and their relative order. */
  lemma ToggleEffect<T(!new)>(s: seq<T>, v: T)
    ensures v !in s ==> Toggle(s, v) == s + [v]
    ensures v in Toggle(s, v) <==> v !in s
    ensures forall x :: x != v ==> (x in Toggle(s, v) <==> x in s)
    ensures Without(Toggle(s, v), v) == Without(s, v)
  {
    if v in s {
      WithoutIdempotent(s, v);
    } else {
      FilterAppend(s, [v], x => x != v);
    }
  }

  /** A toggle never introduces a duplicate. */
  lemma ToggleNoDuplicates<T(!new)>(s: seq<T>, v: T)
    requires NoDuplicates(s)
    ensures NoDuplicates(Toggle(s, v))
  {
    if v in s {
      FilterNoDuplicates(s, x => x != v);
    }
  }

  /** Toggling the same id twice restores the membership of every id; when the
      id was absent the list itself comes back. */
  lemma ToggleTwice<T(!new)>(s: seq<T>, v: T)
    ensures forall x :: x in Toggle(Toggle(s, v), v) <==> x in s
    ensures v !in s ==> Toggle(Toggle(s, v), v) == s
  {
    ToggleEffect(s, v);
    ToggleEffect(Toggle(s, v), v);
    if v !in s {
      FilterAll(s, x => x != v);
    }
  }
}
