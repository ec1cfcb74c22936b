/** Sequence operations shared by the step components: JS `filter`, `slice(0, n)`,
    the "remove if present, else append" toggle, and dnd-kit's `arrayMove`. */
module Lists {

  /** `s.filter(p)` */
  function Filter<T>(s: seq<T>, p: T -> bool): (r: seq<T>)
    ensures |r| <= |s|
    ensures forall x :: x in r ==> x in s && p(x)
    ensures forall x :: x in s && p(x) ==> x in r
  {
    if s == [] then []
    else (if p(s[0]) then [s[0]] else []) + Filter(s[1..], p)
  }

  lemma {:induction false} FilterConcat<T>(a: seq<T>, b: seq<T>, p: T -> bool)
    ensures Filter(a + b, p) == Filter(a, p) + Filter(b, p)
  {
    if a == [] {
      assert a + b == b;
    } else {
      assert (a + b)[1..] == a[1..] + b;
      FilterConcat(a[1..], b, p);
    }
  }

  /** Filtering by a predicate every element satisfies changes nothing. */
  lemma {:induction false} FilterAll<T>(s: seq<T>, p: T -> bool)
    requires forall i :: 0 <= i < |s| ==> p(s[i])
    ensures Filter(s, p) == s
  {
    if s != [] {
      FilterAll(s[1..], p);
    }
  }

  /** A filter keeps at most as many elements as a weaker filter. */
  lemma {:induction false} FilterMonotone<T>(s: seq<T>, p: T -> bool, q: T -> bool)
    requires forall i :: 0 <= i < |s| && p(s[i]) ==> q(s[i])
    ensures |Filter(s, p)| <= |Filter(s, q)|
  {
    if s != [] {
      FilterMonotone(s[1..], p, q);
    }
  }

  /** `xs` is an order-preserving sub-list of `ys`. */
  predicate IsSubseq<T(==)>(xs: seq<T>, ys: seq<T>)
  {
    if xs == [] then true
    else if ys == [] then false
    else if xs[0] == ys[0] then IsSubseq(xs[1..], ys[1..])
    else IsSubseq(xs, ys[1..])
  }

  lemma {:induction false} FilterIsSubseq<T>(s: seq<T>, p: T -> bool)
    ensures IsSubseq(Filter(s, p), s)
  {
    if s != [] {
      FilterIsSubseq(s[1..], p);
      var rest := Filter(s[1..], p);
      if p(s[0]) {
        assert Filter(s, p) == [s[0]] + rest;
        assert ([s[0]] + rest)[1..] == rest;
      } else {
        assert Filter(s, p) == rest;
        SubseqDropHead(rest, s);
      }
    }
  }

  /** A sub-list of `ys[1..]` is a sub-list of `ys`. */
  lemma {:induction false} SubseqDropHead<T>(xs: seq<T>, ys: seq<T>)
    requires ys != []
    requires IsSubseq(xs, ys[1..])
    ensures IsSubseq(xs, ys)
    decreases |ys|, 0
  {
    if xs != [] && xs[0] == ys[0] {
      SubseqWeaken(xs, ys[1..]);
    }
  }

  /** Dropping the head of a non-empty sub-list keeps it a sub-list. */
  lemma {:induction false} SubseqWeaken<T>(xs: seq<T>, ys: seq<T>)
    requires xs != []
    requires IsSubseq(xs, ys)
    ensures IsSubseq(xs[1..], ys)
    decreases |ys|, 1
  {
    if xs[0] != ys[0] {
      SubseqWeaken(xs, ys[1..]);
    }
    if xs[1..] != [] {
      SubseqDropHead(xs[1..], ys);
    }
  }

  /** `xs.filter(y => y !== x)`: every occurrence of `x` removed. */
  function Remove<T(==)>(xs: seq<T>, x: T): (r: seq<T>)
    ensures x !in r
    ensures forall y :: y in r ==> y in xs && y != x
    ensures forall y :: y in xs && y != x ==> y in r
    ensures x !in xs ==> r == xs
  {
    if xs == [] then []
    else (if xs[0] == x then [] else [xs[0]]) + Remove(xs[1..], x)
  }

  lemma {:induction false} RemoveIsSubseq<T>(xs: seq<T>, x: T)
    ensures IsSubseq(Remove(xs, x), xs)
  {
    if xs != [] {
      RemoveIsSubseq(xs[1..], x);
      var rest := Remove(xs[1..], x);
      if xs[0] == x {
        assert Remove(xs, x) == rest;
        SubseqDropHead(rest, xs);
      } else {
        assert Remove(xs, x) == [xs[0]] + rest;
        assert ([xs[0]] + rest)[1..] == rest;
      }
    }
  }

  /** The "remove if present, else append" click handler used by several steps. */
  function Toggle<T(==)>(xs: seq<T>, x: T): (r: seq<T>)
    ensures x in r <==> x !in xs
    ensures forall y :: y in r && y != x ==> y in xs
    ensures forall y :: y in xs && y != x ==> y in r
  {
    if x in xs then Remove(xs, x) else xs + [x]
  }

  /** Toggling an absent element twice restores the list. */
  lemma ToggleTwiceAbsent<T>(xs: seq<T>, x: T)
    requires x !in xs
    ensures Toggle(Toggle(xs, x), x) == xs
  {
    assert x in xs + [x];
    assert Remove(xs + [x], x) == xs by {
      RemoveConcat(xs, [x], x);
      assert Remove([x], x) == [];
    }
  }

  lemma {:induction false} RemoveConcat<T>(a: seq<T>, b: seq<T>, x: T)
    ensures Remove(a + b, x) == Remove(a, x) + Remove(b, x)
  {
    if a == [] {
      assert a + b == b;
    } else {
      assert (a + b)[1..] == a[1..] + b;
      RemoveConcat(a[1..], b, x);
    }
  }

  /** No element occurs twice. */
  predicate NoDup<T(==)>(s: seq<T>)
  {
    forall i, j :: 0 <= i < j < |s| ==> s[i] != s[j]
  }

  lemma {:induction false} RemoveKeepsNoDup<T>(xs: seq<T>, x: T)
    requires NoDup(xs)
    ensures NoDup(Remove(xs, x))
  {
    if xs != [] {
      RemoveKeepsNoDup(xs[1..], x);
      var rest := Remove(xs[1..], x);
      assert xs[0] !in xs[1..] by {
        forall k | 0 <= k < |xs[1..]| ensures xs[1..][k] != xs[0] {
          assert xs[1..][k] == xs[k + 1];
        }
      }
      assert xs[0] !in rest;
    }
  }

  /** Toggling keeps a duplicate-free list duplicate-free. */
  lemma ToggleKeepsNoDup<T>(xs: seq<T>, x: T)
    requires NoDup(xs)
    ensures NoDup(Toggle(xs, x))
  {
    if x in xs {
      RemoveKeepsNoDup(xs, x);
    }
  }

  /** `xs.slice(0, n)` */
  function Take<T>(xs: seq<T>, n: nat): (r: seq<T>)
    ensures |r| <= n && |r| <= |xs|
    ensures r == xs[..|r|]
    ensures |xs| <= n ==> r == xs
    ensures n <= |xs| ==> |r| == n
  {
    if |xs| <= n then xs else xs[..n]
  }

  /** dnd-kit's `arrayMove(xs, from, to)`: remove the element at `from`, then
      insert it at index `to` of the shortened list. */
  function Move<T>(xs: seq<T>, from: nat, to: nat): (r: seq<T>)
    requires from < |xs| && to < |xs|
    ensures |r| == |xs|
    ensures r[to] == xs[from]
  {
    var rest := xs[..from] + xs[from + 1..];
    rest[..to] + [xs[from]] + rest[to..]
  }

  lemma MovePermutes<T>(xs: seq<T>, from: nat, to: nat)
    requires from < |xs| && to < |xs|
    ensures multiset(Move(xs, from, to)) == multiset(xs)
  {
    var rest := xs[..from] + xs[from + 1..];
    assert xs == xs[..from] + [xs[from]] + xs[from + 1..];
    assert multiset(xs) == multiset(rest) + multiset{xs[from]};
    assert rest == rest[..to] + rest[to..];
    assert Move(xs, from, to) == rest[..to] + [xs[from]] + rest[to..];
    assert multiset(Move(xs, from, to)) == multiset(rest[..to]) + multiset{xs[from]} + multiset(rest[to..]);
  }

  /** Index of the first occurrence (`indexOf` for a present element). */
  function IndexOf<T(==)>(xs: seq<T>, x: T): (i: nat)
    requires x in xs
    ensures i < |xs| && xs[i] == x
    ensures forall j :: 0 <= j < i ==> xs[j] != x
  {
    if xs[0] == x then 0 else 1 + IndexOf(xs[1..], x)
  }

  /** Number of elements of `s` satisfying `p` (`s.filter(p).length`). */
  function Count<T>(s: seq<T>, p: T -> bool): (n: nat)
    ensures n == |Filter(s, p)|
  {
    if s == [] then 0 else (if p(s[0]) then 1 else 0) + Count(s[1..], p)
  }

  /** The count reaches the length exactly when every element qualifies. */
  lemma CountFull<T>(s: seq<T>, p: T -> bool)
    ensures Count(s, p) <= |s|
    ensures Count(s, p) == |s| <==> forall x :: x in s ==> p(x)
  {
    if forall i :: 0 <= i < |s| ==> p(s[i]) {
      FilterAll(s, p);
    } else {
      var i :| 0 <= i < |s| && !p(s[i]);
      FilterDropsOne(s, p, i);
    }
  }

  function Sum(s: seq<int>): int
  {
    if s == [] then 0 else s[0] + Sum(s[1..])
  }

  lemma {:induction false} SumConcat(a: seq<int>, b: seq<int>)
    ensures Sum(a + b) == Sum(a) + Sum(b)
  {
    if a == [] {
      assert a + b == b;
    } else {
      assert (a + b)[1..] == a[1..] + b;
      SumConcat(a[1..], b);
    }
  }

  function Min(a: int, b: int): int { if a <= b then a else b }

  function Max(a: int, b: int): int { if a >= b then a else b }

  lemma {:induction false} SubseqLength<T>(xs: seq<T>, ys: seq<T>)
    requires IsSubseq(xs, ys)
    ensures |xs| <= |ys|
  {
    if ys != [] {
      if xs != [] && xs[0] == ys[0] {
        SubseqLength(xs[1..], ys[1..]);
      } else {
        SubseqLength(xs, ys[1..]);
      }
    }
  }

  /** Removing an element of a duplicate-free list shortens it by one. */
  lemma {:induction false} RemovePresentShrinksByOne<T>(xs: seq<T>, x: T)
    requires NoDup(xs) && x in xs
    ensures |Remove(xs, x)| == |xs| - 1
  {
    if xs[0] == x {
      assert x !in xs[1..] by {
        forall k | 0 <= k < |xs[1..]| ensures xs[1..][k] != x {
          assert xs[1..][k] == xs[k + 1];
        }
      }
      assert Remove(xs, x) == Remove(xs[1..], x);
    } else {
      assert x in xs[1..];
      assert NoDup(xs[1..]) by {
        forall i, j | 0 <= i < j < |xs[1..]| ensures xs[1..][i] != xs[1..][j] {
          assert xs[1..][i] == xs[i + 1] && xs[1..][j] == xs[j + 1];
        }
      }
      RemovePresentShrinksByOne(xs[1..], x);
    }
  }

  /** `if (!acc.includes(x)) acc.push(x)`. */
  function AddNew<T(==)>(acc: seq<T>, x: T): seq<T>
  {
    if x in acc then acc else acc + [x]
  }

  /** `xs` pushed one by one onto `acc` with `AddNew`. */
  function Distinct<T(==)>(acc: seq<T>, xs: seq<T>): seq<T>
  {
    if xs == [] then acc else AddNew(Distinct(acc, xs[..|xs| - 1]), xs[|xs| - 1])
  }

  /** The pushes keep `acc` as a prefix, add every element of `xs` exactly
      once, add nothing else, and add them in the order of `xs`. */
  lemma {:induction false} DistinctProps<T>(acc: seq<T>, xs: seq<T>)
    ensures var r := Distinct(acc, xs);
      |acc| <= |r| && r[..|acc|] == acc
      && (NoDup(acc) ==> NoDup(r))
      && (forall x :: x in r <==> x in acc || x in xs)
      && IsSubseq(r[|acc|..], xs)
  {
    if xs != [] {
      var init := xs[..|xs| - 1];
      var last := xs[|xs| - 1];
      DistinctProps(acc, init);
      var d := Distinct(acc, init);
      assert xs == init + [last];
      SubseqAppend(d[|acc|..], init, last);
      if last !in d {
        assert (d + [last])[..|acc|] == d[..|acc|];
        assert (d + [last])[|acc|..] == d[|acc|..] + [last];
      }
    }
  }

  /** A sub-list of `ys` is a sub-list of `ys + [y]`, and extending both
      with `y` keeps it one. */
  lemma {:induction false} SubseqAppend<T>(xs: seq<T>, ys: seq<T>, y: T)
    requires IsSubseq(xs, ys)
    ensures IsSubseq(xs, ys + [y])
    ensures IsSubseq(xs + [y], ys + [y])
  {
    if ys == [] {
      assert xs == [];
      assert IsSubseq([y], [y]) by { assert [y][1..] == []; }
    } else if xs != [] && xs[0] == ys[0] {
      SubseqAppend(xs[1..], ys[1..], y);
      assert (ys + [y])[1..] == ys[1..] + [y];
      assert (xs + [y])[1..] == xs[1..] + [y];
    } else {
      SubseqAppend(xs, ys[1..], y);
      assert (ys + [y])[1..] == ys[1..] + [y];
      if xs == [] {
        assert IsSubseq([y], [y]) by { assert [y][1..] == []; }
        SubseqEndsIn(y, ys[1..]);
      }
    }
  }

  lemma {:induction false} SubseqEndsIn<T>(y: T, ys: seq<T>)
    ensures IsSubseq([y], ys + [y])
  {
    if ys == [] {
      assert [y][1..] == [];
    } else {
      SubseqEndsIn(y, ys[1..]);
      assert (ys + [y])[1..] == ys[1..] + [y];
      if ys[0] == y {
        assert [y][1..] == [];
      }
    }
  }

  lemma DistinctSnoc<T>(acc: seq<T>, ys: seq<T>, y: T)
    ensures Distinct(acc, ys + [y]) == AddNew(Distinct(acc, ys), y)
  {
    assert (ys + [y])[..|ys|] == ys;
  }

  /** Pushing `a + b` is pushing `a`, then `b`. */
  lemma {:induction false} DistinctConcat<T>(acc: seq<T>, a: seq<T>, b: seq<T>)
    ensures Distinct(acc, a + b) == Distinct(Distinct(acc, a), b)
  {
    if b == [] {
      assert a + b == a;
    } else {
      assert (a + b)[..|a + b| - 1] == a + b[..|b| - 1];
      DistinctConcat(acc, a, b[..|b| - 1]);
    }
  }

  /** Being a sub-list is transitive. */
  lemma {:induction false} SubseqTrans<T>(xs: seq<T>, ys: seq<T>, zs: seq<T>)
    requires IsSubseq(xs, ys) && IsSubseq(ys, zs)
    ensures IsSubseq(xs, zs)
    decreases |zs|
  {
    if xs != [] && zs != [] {
      if ys[0] == zs[0] {
        if xs[0] == ys[0] {
          SubseqTrans(xs[1..], ys[1..], zs[1..]);
        } else {
          SubseqTrans(xs, ys[1..], zs[1..]);
        }
      } else {
        SubseqTrans(xs, ys, zs[1..]);
        if xs[0] == zs[0] {
          SubseqWeaken(xs, zs[1..]);
        }
      }
    }
  }

  /** A filter that rejects some element keeps fewer than all. */
  lemma {:induction false} FilterDropsOne<T>(s: seq<T>, p: T -> bool, i: nat)
    requires i < |s| && !p(s[i])
    ensures |Filter(s, p)| < |s|
  {
    if i == 0 {
      assert Filter(s, p) == Filter(s[1..], p);
    } else {
      FilterDropsOne(s[1..], p, i - 1);
    }
  }
}
