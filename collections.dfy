/** Generic sequence helpers standing for the Python built-ins the core relies on:
    `sorted(...)` / `list.sort(key=...)` (a stable sort) and `list(set(...))`. */
module Collections {

  datatype Option<T> = None | Some(value: T)

  /** `le` is total and transitive: what a sort key with `<` provides. */
  ghost predicate TotalPreorder<T(!new)>(le: (T, T) -> bool) {
    && (forall a, b :: le(a, b) || le(b, a))
    && (forall a, b, c :: le(a, b) && le(b, c) ==> le(a, c))
  }

  predicate SortedBy<T>(s: seq<T>, le: (T, T) -> bool) {
    forall i, j :: 0 <= i < j < |s| ==> le(s[i], s[j])
  }

  lemma ConcatAssociative<T>(a: seq<T>, b: seq<T>, c: seq<T>)
    ensures a + (b + c) == (a + b) + c
  {
  }

  /** Inserts `x` after every element it does not strictly precede, which keeps
      the sort stable. */
  function Insert<T(!new)>(x: T, s: seq<T>, le: (T, T) -> bool): (r: seq<T>)
    requires TotalPreorder(le)
    requires SortedBy(s, le)
    ensures SortedBy(r, le)
    ensures multiset(r) == multiset(s) + multiset{x}
    decreases |s|
  {
    if s == [] then [x]
    else if !le(s[0], x) then
      LowerBoundPrepended(x, s, le);
      [x] + s
    else
      var rest := Insert(x, s[1..], le);
      assert s == [s[0]] + s[1..];
      HeadBoundsInsertion(s[0], x, s[1..], rest, le);
      [s[0]] + rest
  }

  lemma LowerBoundPrepended<T(!new)>(x: T, s: seq<T>, le: (T, T) -> bool)
    requires TotalPreorder(le)
    requires SortedBy(s, le)
    requires s != [] && !le(s[0], x)
    ensures SortedBy([x] + s, le)
  {
    forall j | 0 <= j < |s| ensures le(x, s[j]) {
      assert le(x, s[0]);
      if j > 0 { assert le(s[0], s[j]); }
    }
  }

  lemma HeadBoundsInsertion<T(!new)>(h: T, x: T, t: seq<T>, rest: seq<T>, le: (T, T) -> bool)
    requires TotalPreorder(le)
    requires SortedBy([h] + t, le) && SortedBy(rest, le)
    requires le(h, x)
    requires multiset(rest) == multiset(t) + multiset{x}
    ensures SortedBy([h] + rest, le)
  {
    forall k | 0 <= k < |rest| ensures le(h, rest[k]) {
      var y := rest[k];
      assert y in multiset(rest);
      if y != x {
        assert y in multiset(t);
        var i :| 0 <= i < |t| && t[i] == y;
        assert ([h] + t)[0] == h && ([h] + t)[i + 1] == y;
        assert le(([h] + t)[0], ([h] + t)[i + 1]);
      }
    }
    var r := [h] + rest;
    forall i, j | 0 <= i < j < |r| ensures le(r[i], r[j]) {
      if i == 0 { assert r[j] == rest[j - 1]; }
      else { assert r[i] == rest[i - 1] && r[j] == rest[j - 1]; }
    }
  }

  /** Insertion sort over `le`: the model of Python's stable sort. */
  function SortBy<T(!new)>(s: seq<T>, le: (T, T) -> bool): (r: seq<T>)
    requires TotalPreorder(le)
    ensures SortedBy(r, le)
    ensures multiset(r) == multiset(s)
    ensures |r| == |s|
    decreases |s|
  {
    if s == [] then []
    else
      var init := s[..|s| - 1];
      var last := s[|s| - 1];
      var sortedInit := SortBy(init, le);
      assert s == init + [last];
      assert multiset(s) == multiset(init) + multiset{last};
      Insert(last, sortedInit, le)
  }

  /** `list(set(s))`: every distinct element exactly once. Python's set has no
      defined iteration order; this model keeps first occurrences in order. */
  function Dedup<T(==,!new)>(s: seq<T>): (r: seq<T>)
    ensures forall x :: x in r <==> x in s
    ensures forall x :: multiset(r)[x] <= 1
    ensures |r| <= |s|
    decreases |s|
  {
    if s == [] then []
    else
      var init := s[..|s| - 1];
      var rest := Dedup(init);
      assert s == init + [s[|s| - 1]];
      if s[|s| - 1] in rest then rest else rest + [s[|s| - 1]]
  }
}
